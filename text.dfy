/** String building used by both checkout messages: `Array.join("\n")`,
    its inverse (splitting a message back into lines), and the decimal
    rendering that a template literal gives an integer. */
module Text {

  /** `ls.join("\n")`. */
  function Join(ls: seq<string>): (r: string)
    ensures |ls| == 0 ==> r == ""
    ensures |ls| == 1 ==> r == ls[0]
    decreases |ls|
  {
    if |ls| == 0 then ""
    else if |ls| == 1 then ls[0]
    else ls[0] + "\n" + Join(ls[1..])
  }

  predicate NoNewline(s: string)
  {
    forall i :: 0 <= i < |s| ==> s[i] != '\n'
  }

  lemma NoNewlineConcat(a: string, b: string)
    ensures NoNewline(a + b) <==> NoNewline(a) && NoNewline(b)
  {
    assert forall i :: 0 <= i < |a| ==> a[i] == (a + b)[i];
    assert forall i :: 0 <= i < |b| ==> b[i] == (a + b)[|a| + i];
  }

  predicate AllNoNewline(ls: seq<string>)
  {
    forall k :: 0 <= k < |ls| ==> NoNewline(ls[k])
  }

  lemma AllNoNewlineAppend(a: seq<string>, b: seq<string>)
    requires AllNoNewline(a) && AllNoNewline(b)
    ensures AllNoNewline(a + b)
  {
    assert forall k :: |a| <= k < |a + b| ==> (a + b)[k] == b[k - |a|];
  }

  /** `s.split("\n")`: the pieces between newlines; the empty string gives
      one empty line. */
  function SplitLines(s: string): (r: seq<string>)
    ensures |r| >= 1
    ensures AllNoNewline(r)
    decreases |s|
  {
    if |s| == 0 then [""]
    else
      var rest := SplitLines(s[1..]);
      if s[0] == '\n' then [""] + rest
      else [[s[0]] + rest[0]] + rest[1..]
  }

  /** A newline-free prefix extends the first line and nothing else. */
  lemma {:induction false} SplitLinesPrefix(a: string, b: string)
    requires NoNewline(a)
    ensures SplitLines(a + b) == [a + SplitLines(b)[0]] + SplitLines(b)[1..]
    decreases |a|
  {
    if |a| == 0 {
      assert a + b == b;
      assert a + SplitLines(b)[0] == SplitLines(b)[0];
    } else {
      assert (a + b)[1..] == a[1..] + b;
      SplitLinesPrefix(a[1..], b);
      assert [a[0]] + (a[1..] + SplitLines(b)[0]) == a + SplitLines(b)[0];
    }
  }

  lemma SplitLinesAfterNewline(b: string)
    ensures SplitLines("\n" + b) == [""] + SplitLines(b)
  {
    assert ("\n" + b)[1..] == b;
  }

  /** Splitting undoes joining, as long as no line holds a newline itself. */
  lemma {:induction false} SplitJoin(ls: seq<string>)
    requires |ls| > 0
    requires AllNoNewline(ls)
    ensures SplitLines(Join(ls)) == ls
    decreases |ls|
  {
    if |ls| == 1 {
      SplitLinesPrefix(ls[0], "");
      assert ls[0] + "" == ls[0];
    } else {
      var rest := Join(ls[1..]);
      SplitJoin(ls[1..]);
      SplitLinesAfterNewline(rest);
      SplitLinesPrefix(ls[0], "\n" + rest);
      assert Join(ls) == ls[0] + ("\n" + rest);
      assert SplitLines("\n" + rest)[0] == "" && SplitLines("\n" + rest)[1..] == ls[1..];
      assert ls[0] + "" == ls[0];
      assert ls == [ls[0]] + ls[1..];
    }
  }

  /** Joining two non-empty blocks puts exactly one newline between them. */
  lemma {:induction false} JoinAppend(a: seq<string>, b: seq<string>)
    requires |a| > 0 && |b| > 0
    ensures Join(a + b) == Join(a) + "\n" + Join(b)
    decreases |a|
  {
    if |a| == 1 {
      assert (a + b)[1..] == b;
    } else {
      assert (a + b)[1..] == a[1..] + b;
      JoinAppend(a[1..], b);
    }
  }

  /** A joined block on a line of its own reads as its lines in place. */
  lemma JoinFlatten(pre: seq<string>, body: seq<string>, post: seq<string>)
    requires |pre| > 0 && |body| > 0 && |post| > 0
    ensures Join(pre + [Join(body)] + post) == Join(pre + body + post)
  {
    JoinAppend(pre, [Join(body)]);
    JoinAppend(pre + [Join(body)], post);
    JoinAppend(pre, body);
    JoinAppend(pre + body, post);
  }

  /** A template whose middle line is a joined block of bullets, with every
      line and bullet free of newlines, reads back line by line as the
      template's lines with the bullets in place. */
  lemma TemplateLines(head: seq<string>, body: seq<string>, foot: seq<string>)
    requires |head| > 0 && |body| > 0 && |foot| > 0
    requires AllNoNewline(head) && AllNoNewline(body) && AllNoNewline(foot)
    ensures SplitLines(Join(head + [Join(body)] + foot)) == head + body + foot
  {
    JoinFlatten(head, body, foot);
    AllNoNewlineAppend(head, body);
    AllNoNewlineAppend(head + body, foot);
    SplitJoin(head + body + foot);
  }

  function DigitChar(d: int): (c: char)
    requires 0 <= d < 10
    ensures '0' <= c <= '9' && c as int - '0' as int == d
  {
    "0123456789"[d]
  }

  predicate IsDigits(s: string)
  {
    forall i :: 0 <= i < |s| ==> '0' <= s[i] <= '9'
  }

  /** The decimal digits of `n`, with no leading zero. */
  function NatToString(n: nat): (r: string)
    ensures |r| >= 1 && IsDigits(r)
    ensures r[0] == '0' ==> n == 0
    decreases n
  {
    if n < 10 then [DigitChar(n)]
    else NatToString(n / 10) + [DigitChar(n % 10)]
  }

  /** `${n}` for an integer-valued number: a minus sign, then the digits. */
  function IntToString(n: int): (r: string)
    ensures NoNewline(r)
    ensures n >= 0 <==> |r| > 0 && r[0] != '-'
  {
    if n < 0 then "-" + NatToString(-n) else NatToString(n)
  }

  /** Reads a string of decimal digits back as a number. */
  function DigitsValue(s: string): nat
    requires IsDigits(s)
    decreases |s|
  {
    if |s| == 0 then 0
    else DigitsValue(s[..|s| - 1]) * 10 + (s[|s| - 1] as int - '0' as int)
  }

  /** The rendering of a count can be read back: the message states the
      number it was given. */
  lemma {:induction false} NatToStringRoundTrip(n: nat)
    ensures DigitsValue(NatToString(n)) == n
    decreases n
  {
    if n >= 10 {
      NatToStringRoundTrip(n / 10);
      var s := NatToString(n);
      assert s[..|s| - 1] == NatToString(n / 10);
    }
  }
}
