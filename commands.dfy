/**
  How a chat command is read: the argument of `/add`, `/rm` is the text after
  the first space, and a multi-line argument is a list of queries.
*/
module Commands {
  import opened Text

  /** The part of a Telegram update the bot reads: the chat and the message text. */
  datatype Update = Update(chatId: string, text: string)

  /**
    `_get_message_data`: the chat id and the command argument, which is the
    text after the first space; with no space at all (`find` gives -1) the
    argument is the whole text, command included.
  */
  function MessageData(u: Update): (r: (string, string))
    ensures r.0 == u.chatId
    ensures ' ' !in u.text ==> r.1 == u.text
    ensures ' ' in u.text ==>
              var n := |u.text| - |r.1| - 1;
              0 <= n && u.text[n] == ' ' && ' ' !in u.text[..n] && r.1 == u.text[n + 1..]
  {
    (u.chatId, u.text[Find(u.text, ' ') + 1..])
  }

  /**
    `_parse_queries`: strip the whole text, then split it on newlines. The
    result is never empty, no query holds a newline, and joining the queries
    back gives exactly the stripped text (lines are not trimmed one by one).
  */
  function ParseQueries(text: string): (qs: seq<string>)
    ensures |qs| >= 1
    ensures forall i :: 0 <= i < |qs| ==> '\n' !in qs[i]
    ensures Join(qs, '\n') == Strip(text)
  {
    JoinSplit(Strip(text), '\n');
    Split(Strip(text), '\n')
  }

  lemma StripUnchanged(s: string)
    requires s == [] || (!IsSpace(s[0]) && !IsSpace(s[|s| - 1]))
    ensures Strip(s) == s
  {
    if s != [] {
      assert Leading(s) == 0;
      assert Trailing(s) == 0;
    }
  }

  /** A join ends with its last piece. */
  lemma {:induction false} JoinEndsWithLast(parts: seq<string>, sep: char)
    requires |parts| >= 1
    ensures var j := Join(parts, sep); var last := parts[|parts| - 1];
            |last| <= |j| && j[|j| - |last|..] == last
  {
    if |parts| > 1 {
      JoinEndsWithLast(parts[1..], sep);
    }
  }

  /**
    Lines whose block does not begin or end with whitespace come back exactly
    as written, inner whitespace and blank inner lines included.
  */
  lemma ParseKeepsLines(lines: seq<string>)
    requires |lines| >= 1
    requires forall i :: 0 <= i < |lines| ==> '\n' !in lines[i]
    requires lines[0] != [] && !IsSpace(lines[0][0])
    requires var last := lines[|lines| - 1]; last != [] && !IsSpace(last[|last| - 1])
    ensures ParseQueries(Join(lines, '\n')) == lines
  {
    JoinEndsWithLast(lines, '\n');
    var j := Join(lines, '\n');
    assert j[0] == lines[0][0];
    assert j[|j| - 1] == j[|j| - |lines[|lines| - 1]|..][|lines[|lines| - 1]| - 1];
    StripUnchanged(Join(lines, '\n'));
    SplitJoin(lines, '\n');
  }
}
