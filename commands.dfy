/** The three self-authored text commands of the selfbot: a message's text is
    lower-cased and trimmed and then compared word for word. */
module Commands {
  import opened Normalize

  datatype Command =
    | Resume   // `&povv`: clear the pause flag and join the target channel
    | Pause    // `!vc pause`: set the pause flag and leave voice
    | Status   // `!vc status`: report the pause flag
    | Ignored  // any other text

  /** The normalised spelling of each command. */
  function Word(cmd: Command): (w: string)
    requires cmd != Ignored
    ensures |w| >= 5
    ensures forall i | 0 <= i < |w| :: !IsUpper(w[i])
    ensures !IsWhitespace(w[0]) && !IsWhitespace(w[|w| - 1])
  {
    assert "&povv"[0] == '&' && "!vc pause"[0] == '!';
    match cmd
    case Resume => "&povv"
    case Pause => "!vc pause"
    case Status => "!vc status"
  }

  /** `message.content.toLowerCase().trim()` compared with the three words. */
  function Parse(content: string): Command {
    var text := Trim(ToLower(content));
    if text == "&povv" then Resume
    else if text == "!vc pause" then Pause
    else if text == "!vc status" then Status
    else Ignored
  }

  /** A command is recognised exactly when its word is the normalised text. */
  lemma {:induction false} ParseMatchesWord(content: string, cmd: Command)
    requires cmd != Ignored
    ensures Parse(content) == cmd <==> Trim(ToLower(content)) == Word(cmd)
  {
  }

  /** Each word, written in any mix of capitals and padded with any
      whitespace, is recognised as its command. */
  lemma {:induction false} ParseRecognises(ws1: string, spelled: string, ws2: string, cmd: Command)
    requires cmd != Ignored
    requires AllWhitespace(ws1) && AllWhitespace(ws2)
    requires ToLower(spelled) == Word(cmd)
    ensures Parse(ws1 + spelled + ws2) == cmd
  {
    var w, content := Word(cmd), ws1 + spelled + ws2;
    assert Trim(ToLower(content)) == w by {
      NormaliseIgnoresPadding(ws1, spelled, ws2);
      TrimUnpadded(w);
    }
    ParseMatchesWord(content, cmd);
  }

  /** Conversely, a recognised message is its command's word, in some mix of
      capitals, between whitespace. */
  lemma {:induction false} ParseOnlyRecognises(content: string) returns (ws1: string, spelled: string, ws2: string)
    requires Parse(content) != Ignored
    ensures content == ws1 + spelled + ws2
    ensures AllWhitespace(ws1) && AllWhitespace(ws2)
    ensures ToLower(spelled) == Word(Parse(content))
  {
    ws1, spelled, ws2 := NormaliseSplit(content);
    ParseMatchesWord(content, Parse(content));
  }

  /** The words are already normalised, so each is recognised as itself. */
  lemma {:induction false} ParseWord(cmd: Command)
    requires cmd != Ignored
    ensures Parse(Word(cmd)) == cmd
  {
    var w := Word(cmd);
    ToLowerIdentity(w);
    Unpadded(w);
    ParseRecognises([], w, [], cmd);
  }
}
