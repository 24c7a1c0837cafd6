/** The audio engine (pygame.mixer.music) seen only through the calls the
    player makes on it. The player records them in order in a log. */
module Mixer {

  datatype Call =
    | Load(dir: string, track: string)  // load(os.path.join(dir, track))
    | Play
    | Pause
    | Unpause
    | Stop
}
