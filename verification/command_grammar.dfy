/**
 * The command-token matcher that the router compiles at construction time:
 * the pattern `(?<=^/)\w+((?=@<botUsername>$)|$)`, applied to the lower-cased
 * message text. `\w` and lower-casing are restricted to ASCII here.
 */
module CommandGrammar {
  import opened Base

  predicate IsWordChar(c: char)
  {
    'a' <= c <= 'z' || 'A' <= c <= 'Z' || '0' <= c <= '9' || c == '_'
  }

  function LowerChar(c: char): char
  {
    if 'A' <= c <= 'Z' then (c as int + 32) as char else c
  }

  /**
   * `string.ToLower()`, on ASCII letters: no capital is left, each capital
   * becomes its own small letter, and every other character stays.
   */
  function Lower(s: string): (r: string)
    ensures |r| == |s|
    ensures forall i :: 0 <= i < |r| ==> !('A' <= r[i] <= 'Z')
    ensures forall i :: 0 <= i < |s| && 'A' <= s[i] <= 'Z' ==> r[i] as int - 'a' as int == s[i] as int - 'A' as int
    ensures forall i :: 0 <= i < |s| && !('A' <= s[i] <= 'Z') ==> r[i] == s[i]
  {
    seq(|s|, i requires 0 <= i < |s| => LowerChar(s[i]))
  }

  /** Lower-casing twice is lower-casing once: keys stored lower-cased stay keys. */
  lemma LowerIdempotent(s: string)
    ensures Lower(Lower(s)) == Lower(s)
  {
    assert forall i :: 0 <= i < |s| ==> Lower(Lower(s))[i] == Lower(s)[i];
  }

  /** The end of the run of word characters that starts at `i`. */
  function WordRunEnd(s: string, i: nat): (j: nat)
    requires i <= |s|
    ensures i <= j <= |s|
    ensures forall k :: i <= k < j ==> IsWordChar(s[k])
    ensures j < |s| ==> !IsWordChar(s[j])
    decreases |s| - i
  {
    if i < |s| && IsWordChar(s[i]) then WordRunEnd(s, i + 1) else i
  }

  /** What may follow the command name: .NET's `$` also matches before a final newline. */
  predicate IsTail(rest: string, botUsername: string)
  {
    rest == "" || rest == "\n" || rest == "@" + botUsername || rest == "@" + botUsername + "\n"
  }

  /**
   * The match of the command pattern: the word characters after a leading
   * `/`, when they are followed by the end of the text or by `@` and the
   * bot's username at the end of the text. A shorter run cannot match: the
   * character after it is a word character, which is neither `@` nor an end.
   */
  function MatchCommand(text: string, botUsername: string): (r: Option<string>)
    ensures r.Some? ==> |r.value| > 0 && |text| > |r.value| && text[0] == '/'
  {
    if |text| == 0 || text[0] != '/' then None
    else
      var j := WordRunEnd(text, 1);
      if j > 1 && IsTail(text[j..], botUsername) then Some(text[1..j]) else None
  }

  predicate IsName(name: string)
  {
    |name| > 0 && forall i :: 0 <= i < |name| ==> IsWordChar(name[i])
  }

  /** `text` is the command `name`, optionally addressed to the bot. */
  predicate Spells(text: string, name: string, botUsername: string)
  {
    IsName(name) && |text| > |name| && text[..|name| + 1] == "/" + name && IsTail(text[|name| + 1..], botUsername)
  }

  /** Every match is a name spelled out by the whole text. */
  lemma MatchCommandSound(text: string, botUsername: string)
    requires MatchCommand(text, botUsername).Some?
    ensures Spells(text, MatchCommand(text, botUsername).value, botUsername)
  {
    var name := MatchCommand(text, botUsername).value;
    var j := WordRunEnd(text, 1);
    assert name == text[1..j];
    assert text[..|name| + 1] == [text[0]] + text[1..j];
  }

  /** Every text that spells a name matches, with exactly that name. */
  lemma MatchCommandComplete(text: string, name: string, botUsername: string)
    requires Spells(text, name, botUsername)
    ensures MatchCommand(text, botUsername) == Some(name)
  {
    var n := |name| + 1;
    assert text[0] == ("/" + name)[0] == '/';
    forall k | 1 <= k < n ensures IsWordChar(text[k]) {
      assert text[k] == text[..n][k] == ("/" + name)[k] == name[k - 1];
    }
    // the tail starts with '@' or a newline, so the run of word characters stops at n
    assert n < |text| ==> text[n] == text[n..][0];
    assert n < |text| ==> !IsWordChar(text[n]);
    assert WordRunEnd(text, 1) == n;
    assert text[1..n] == ("/" + name)[1..] == name;
  }

  /**
   * Only the text is lower-cased, not the pattern: a command addressed to a
   * bot whose username has an upper-case letter never matches.
   */
  lemma UpperCaseUsernameNeverMatches(name: string, botUsername: string, i: nat)
    requires i < |botUsername| && 'A' <= botUsername[i] <= 'Z'
    ensures MatchCommand(Lower("/" + name + "@" + botUsername), botUsername).None?
  {
    var text := Lower("/" + name + "@" + botUsername);
    var p := |name| + 1;
    assert text[p] == '@';
    var j := WordRunEnd(text, 1);
    // '@' is not a word character, so the run ends at or before it
    assert j <= p;
    var rest := text[j..];
    assert rest[p - j] == '@';
    assert rest != "" && rest != "\n";
    assert |rest| > i + 1 ==> rest[i + 1] == text[j + i + 1];
    assert ("@" + botUsername)[i + 1] == botUsername[i];
    assert ("@" + botUsername + "\n")[i + 1] == botUsername[i];
    assert !IsTail(rest, botUsername);
  }
}
