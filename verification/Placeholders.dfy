/** Filling in the password placeholders of a new project's environment file. */
module Placeholders {
  import opened Wrappers
  import opened Texts

  const MARK := "CHANGEME"

  predicate MatchAt(s: string, i: nat) {
    i + |MARK| <= |s| && s[i..i + |MARK|] == MARK
  }

  lemma MatchTail(s: string, i: nat)
    requires s != ""
    ensures MatchAt(s[1..], i) <==> MatchAt(s, i + 1)
  {
    if i + 1 + |MARK| <= |s| {
      assert s[1..][i..i + |MARK|] == s[i + 1..i + 1 + |MARK|];
    }
  }

  /** strings.Index of the mark. */
  function Find(s: string): (r: Option<nat>)
    ensures r.Some? ==> MatchAt(s, r.value) && forall j :: 0 <= j < r.value ==> !MatchAt(s, j)
    ensures r.None? ==> forall j :: 0 <= j ==> !MatchAt(s, j)
  {
    if s == "" then None
    else if MatchAt(s, 0) then Some(0)
    else
      var rest := Find(s[1..]);
      assert forall j :: 0 < j ==> (MatchAt(s, j) <==> MatchAt(s[1..], j - 1)) by {
        forall j | 0 < j
          ensures MatchAt(s, j) <==> MatchAt(s[1..], j - 1)
        {
          MatchTail(s, j - 1);
        }
      }
      if rest.None? then None else Some(rest.value + 1)
  }

  function FindChar(s: string, c: char): (r: Option<nat>)
    ensures r.Some? ==> r.value < |s| && s[r.value] == c && c !in s[..r.value]
    ensures r.None? ==> c !in s
  {
    if s == "" then None
    else if s[0] == c then Some(0)
    else
      var rest := FindChar(s[1..], c);
      assert s == [s[0]] + s[1..];
      if rest.None? then None
      else
        assert s[..rest.value + 1] == [s[0]] + s[1..][..rest.value];
        Some(rest.value + 1)
  }

  function HexDigit(d: nat): char
    requires d < 16
  {
    if d < 10 then ('0' as int + d) as char else ('a' as int + d - 10) as char
  }

  predicate NoCapitals(s: string) {
    forall i :: 0 <= i < |s| ==> !Upper(s[i])
  }

  type Byte = b: nat | b < 256

  /** Reading a digit, and pairs of digits, back. */
  function DigitValue(c: char): nat {
    if '0' <= c <= '9' then c as int - '0' as int
    else if 'a' <= c <= 'f' then c as int - 'a' as int + 10
    else 0
  }

  function Unhex(s: string): seq<nat> {
    if |s| < 2 then [] else [16 * DigitValue(s[0]) + DigitValue(s[1])] + Unhex(s[2..])
  }

  /** A secret stands for its bytes: all are read back, so no two of them share a text. */
  lemma {:induction false} HexRoundTrip(bytes: seq<Byte>)
    ensures Unhex(Hex(bytes)) == bytes
  {
    if bytes != [] {
      HexRoundTrip(bytes[1..]);
      var first := [HexDigit(bytes[0] / 16), HexDigit(bytes[0] % 16)];
      assert Hex(bytes) == first + Hex(bytes[1..]);
      assert Hex(bytes)[2..] == Hex(bytes[1..]);
      assert DigitValue(HexDigit(bytes[0] / 16)) == bytes[0] / 16 && DigitValue(HexDigit(bytes[0] % 16)) == bytes[0] % 16;
    }
  }

  /** hex.EncodeToString: two digits a byte, none of them upper-case. */
  function Hex(bytes: seq<Byte>): (s: string)
    ensures |s| == 2 * |bytes| && NoCapitals(s)
  {
    if bytes == [] then "" else [HexDigit(bytes[0] / 16), HexDigit(bytes[0] % 16)] + Hex(bytes[1..])
  }

  /** A placeholder ends with its mark, or at the parenthesis of the command that follows it. */
  function Rest(after: string): (rest: string)
    ensures |rest| <= |after|
  {
    if after != "" && after[0] == '_' && FindChar(after, ')').Some? then after[FindChar(after, ')').value + 1..] else after
  }

  /** The text with each placeholder replaced by a secret of its own and everything
      else as it was. */
  function Filled(text: string, random: nat -> seq<Byte>, k: nat): string
    decreases |text|
  {
    var at := Find(text);
    if at.None? then text
    else text[..at.value] + Hex(random(k)) + Filled(Rest(text[at.value + |MARK|..]), random, k + 1)
  }

  /** Text that no placeholder reaches into, whatever follows it. */
  ghost predicate Settled(done: string) {
    (done != "" ==> !Upper(done[|done| - 1])) && forall i :: 0 <= i ==> !MatchAt(done, i)
  }

  lemma SettledStops(done: string, rest: string)
    requires Settled(done)
    ensures forall i :: 0 <= i < |done| ==> !MatchAt(done + rest, i)
    ensures forall i :: 0 <= i ==> (MatchAt(done + rest, |done| + i) <==> MatchAt(rest, i))
  {
    var s := done + rest;
    forall i | 0 <= i < |done|
      ensures !MatchAt(s, i)
    {
      if i + |MARK| <= |s| {
        if i + |MARK| <= |done| {
          assert s[i..i + |MARK|] == done[i..i + |MARK|];
          assert !MatchAt(done, i);
        } else {
          assert s[i..i + |MARK|][|done| - 1 - i] == done[|done| - 1];
          assert forall j :: 0 <= j < |MARK| ==> Upper(MARK[j]);
        }
      }
    }
    forall i | 0 <= i
      ensures MatchAt(s, |done| + i) <==> MatchAt(rest, i)
    {
      if |done| + i + |MARK| <= |s| {
        assert s[|done| + i..|done| + i + |MARK|] == rest[i..i + |MARK|];
      }
    }
  }

  /** The first placeholder of the whole is the first one of the rest. */
  lemma FindShift(done: string, rest: string)
    requires Settled(done)
    ensures var whole, part := Find(done + rest), Find(rest);
            (whole.None? <==> part.None?) && (whole.Some? ==> whole.value == |done| + part.value)
  {
    SettledStops(done, rest);
    var whole, part := Find(done + rest), Find(rest);
    if part.Some? {
      assert MatchAt(done + rest, |done| + part.value);
    }
    if whole.Some? {
      assert whole.value >= |done|;
      assert MatchAt(rest, whole.value - |done|);
    }
  }

  /** What lies before a placeholder, with the secret after it, is settled. */
  lemma SettledGrows(text: string, at: nat, secret: string)
    requires MatchAt(text, at) && (forall j :: 0 <= j < at ==> !MatchAt(text, j)) && secret != "" && NoCapitals(secret)
    ensures Settled(text[..at] + secret)
  {
    var done := text[..at] + secret;
    forall i | 0 <= i
      ensures !MatchAt(done, i)
    {
      if i + |MARK| <= at {
        assert done[i..i + |MARK|] == text[i..i + |MARK|];
        assert !MatchAt(text, i);
      } else if i + |MARK| <= |done| {
        assert done[i..i + |MARK|][|MARK| - 1] == secret[i + |MARK| - 1 - at];
        assert MARK[|MARK| - 1] == 'E';
      }
    }
  }

  function Capitals(s: string): nat {
    if s == "" then 0 else Capitals(s[1..]) + if Upper(s[0]) then 1 else 0
  }

  lemma {:induction false} CapitalsAdd(a: string, b: string)
    ensures Capitals(a + b) == Capitals(a) + Capitals(b)
  {
    if a == "" {
      assert a + b == b;
    } else {
      assert (a + b)[1..] == a[1..] + b;
      CapitalsAdd(a[1..], b);
    }
  }

  lemma {:induction false} LowerHasNone(s: string)
    requires NoCapitals(s)
    ensures Capitals(s) == 0
  {
    if s != "" {
      LowerHasNone(s[1..]);
    }
  }

  /** A step may make the text longer, but always takes capital letters out of it. */
  lemma FewerCapitals(text: string, at: nat, secret: string)
    requires MatchAt(text, at) && NoCapitals(secret)
    ensures Capitals(text[..at] + secret + Rest(text[at + |MARK|..])) < Capitals(text)
  {
    var before, after := text[..at], text[at + |MARK|..];
    var rest := Rest(after);
    assert text == before + (MARK + after);
    assert after == after[..|after| - |rest|] + rest;
    CapitalsAdd(before, MARK + after);
    CapitalsAdd(MARK, after);
    CapitalsAdd(after[..|after| - |rest|], rest);
    CapitalsAdd(before + secret, rest);
    CapitalsAdd(before, secret);
    LowerHasNone(secret);
    assert Capitals(MARK) >= 1 by { assert MARK[0] == 'C'; }
  }

  /** The loop ends on every text, fills every placeholder with a secret of its own,
      keeps everything else, and leaves no placeholder. */
  method ReplacePasswordPlaceholders(text: string, random: nat -> seq<Byte>) returns (content: string)
    requires forall k :: |random(k)| == 16
    ensures content == Filled(text, random, 0)
    ensures forall i :: 0 <= i ==> !MatchAt(content, i)
  {
    content := text;
    var k := 0;
    ghost var done, rest, goal := "", text, Filled(text, random, k);
    while true
      invariant Settled(done) && content == done + rest
      invariant goal == done + Filled(rest, random, k)
      decreases Capitals(content)
    {
      FindShift(done, rest);
      var at := Find(content);
      if at.None? { break; }
      var idx := at.value;
      var secret := Hex(random(k));
      var before := content[..idx];
      var after := SkipCommand(content[idx + |MARK|..]);
      FillKeeps(done, rest, idx, random, k);
      content := before + secret + after;
      done, rest, k := before + secret, after, k + 1;
    }
    SettledEnd(done, rest);
  }

  lemma FillKeeps(done: string, rest: string, idx: nat, random: nat -> seq<Byte>, k: nat)
    requires Settled(done) && |random(k)| == 16 && Find(done + rest) == Some(idx)
    ensures var content, secret := done + rest, Hex(random(k));
            var before, after := content[..idx], Rest(content[idx + |MARK|..]);
            && Settled(before + secret) && Capitals(before + secret + after) < Capitals(content)
            && done + Filled(rest, random, k) == before + secret + Filled(after, random, k + 1)
  {
    var content, secret := done + rest, Hex(random(k));
    FindShift(done, rest);
    FewerCapitals(content, idx, secret);
    SettledGrows(content, idx, secret);
    Cut(done, rest, idx - |done|, idx - |done| + |MARK|);
    FilledNext(done, rest, idx - |done|, random, k, Rest(content[idx + |MARK|..]));
  }

  /** Skip the rest of a placeholder that goes on with an underscore and a command. */
  method SkipCommand(text: string) returns (after: string)
    ensures after == Rest(text)
  {
    after := text;
    if after != "" && after[0] == '_' {
      var end := FindChar(after, ')');
      if end.Some? { after := after[end.value + 1..]; }
    }
  }

  lemma SettledEnd(done: string, rest: string)
    requires Settled(done) && Find(rest).None?
    ensures forall i :: 0 <= i ==> !MatchAt(done + rest, i)
  {
    FindShift(done, rest);
  }

  lemma FilledStep(rest: string, at: nat, random: nat -> seq<Byte>, k: nat)
    requires Find(rest) == Some(at)
    ensures Filled(rest, random, k) == rest[..at] + Hex(random(k)) + Filled(Rest(rest[at + |MARK|..]), random, k + 1)
  {
  }

  /** One step of filling, seen from the whole text. */
  lemma FilledNext(done: string, rest: string, at: nat, random: nat -> seq<Byte>, k: nat, after: string)
    requires Find(rest) == Some(at) && after == Rest(rest[at + |MARK|..])
    ensures done + Filled(rest, random, k) == (done + rest[..at]) + Hex(random(k)) + Filled(after, random, k + 1)
  {
    FilledStep(rest, at, random, k);
    Regroup(done, rest[..at], Hex(random(k)), Filled(after, random, k + 1));
  }

  lemma Cut(done: string, rest: string, i: nat, j: nat)
    requires i <= |rest| && j <= |rest|
    ensures (done + rest)[..|done| + i] == done + rest[..i] && (done + rest)[|done| + j..] == rest[j..]
  {
  }

  lemma Regroup(a: string, b: string, c: string, d: string)
    ensures a + (b + c + d) == a + b + c + d
  {
  }
}
