/** The command table of the input loop: one character per transport
    operation, looked up after stripping and lower-casing the line read. */
module Commands {
  import Text
  import opened Wrappers

  datatype Command = TogglePause | Next | Previous | ShowList | Random | Select | Quit

  /** The character bound to each command in the table. */
  function Key(c: Command): char {
    match c
    case TogglePause => 'p'
    case Next => 'n'
    case Previous => 'b'
    case ShowList => 'l'
    case Random => 'r'
    case Select => 's'
    case Quit => 'q'
  }

  /** The table lookup: a key finds its command, anything else finds none. */
  function Lookup(key: string): (r: Option<Command>)
    ensures r.Some? ==> key == [Key(r.value)]
    ensures forall c :: key == [Key(c)] ==> r == Some(c)
  {
    if key == "p" then Some(TogglePause)
    else if key == "n" then Some(Next)
    else if key == "b" then Some(Previous)
    else if key == "l" then Some(ShowList)
    else if key == "r" then Some(Random)
    else if key == "s" then Some(Select)
    else if key == "q" then Some(Quit)
    else None
  }

  /** The command a line of input selects, if any: only a line that is a
      single character once stripped, that character being a key in
      either case, selects one. */
  function Parse(line: string): (r: Option<Command>)
    ensures r.Some? ==> |Text.Strip(line)| == 1 && Text.LowerChar(Text.Strip(line)[0]) == Key(r.value)
  {
    Lookup(Text.ToLower(Text.Strip(line)))
  }

  /** A line selects a command exactly when it is that command's key, in
      either case, with any white space around it. */
  lemma ParseAccepts(pre: string, key: char, post: string, c: Command)
    requires Text.AllSpace(pre) && Text.AllSpace(post)
    requires Text.LowerChar(key) == Key(c)
    ensures Parse(pre + [key] + post) == Some(c)
  {
    assert !Text.IsSpace(key);
    Text.StripPadded(pre, [key], post);
  }

  lemma ParseRejects(line: string)
    ensures Parse(line) == None <==> forall c :: Text.ToLower(Text.Strip(line)) != [Key(c)]
  {
  }
}
