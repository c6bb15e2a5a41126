/** Anchored regular expressions built from character classes with repeat
    counts, such as `^\+?[1-9]\d{1,14}$`: enough to state what the phone and
    username patterns accept. */
module Pattern {
  import opened Wrappers
  import opened Decimal

  /** An inclusive character range inside a class, as in `a-z`. */
  datatype Range = Range(lo: char, hi: char)

  predicate InClass(c: char, cls: seq<Range>) {
    exists i :: 0 <= i < |cls| && cls[i].lo <= c <= cls[i].hi
  }

  lemma InRange(c: char, cls: seq<Range>, i: nat)
    requires i < |cls| && cls[i].lo <= c <= cls[i].hi
    ensures InClass(c, cls)
  {
  }

  predicate AllIn(s: string, cls: seq<Range>) {
    forall i :: 0 <= i < |s| ==> InClass(s[i], cls)
  }

  /** `cls{min,max}`; no max means unbounded, as in `+`. */
  datatype Term = Term(cls: seq<Range>, min: nat, max: Option<nat>)

  predicate WithinMax(k: nat, t: Term) {
    t.max.None? || k <= t.max.value
  }

  /** `^t1 t2 ... tn$` matches s: s splits into consecutive pieces, one per
      term, each piece of a length the term allows and drawn from its class. */
  predicate Matches(ts: seq<Term>, s: string)
    decreases |ts|
  {
    if ts == [] then s == []
    else
      exists k :: 0 <= k <= |s| && ts[0].min <= k && WithinMax(k, ts[0])
        && AllIn(s[..k], ts[0].cls) && Matches(ts[1..], s[k..])
  }

  /** A single term matches exactly the strings of an allowed length drawn
      from its class. */
  lemma {:induction false} MatchesOne(t: Term, s: string)
    ensures Matches([t], s) <==> t.min <= |s| && WithinMax(|s|, t) && AllIn(s, t.cls)
  {
    assert [t][1..] == [];
    if t.min <= |s| && WithinMax(|s|, t) && AllIn(s, t.cls) {
      assert s[..|s|] == s;
      assert Matches([t][1..], s[|s|..]);
    }
    if Matches([t], s) {
      var k :| 0 <= k <= |s| && t.min <= k && WithinMax(k, t) && AllIn(s[..k], t.cls) && Matches([t][1..], s[k..]);
      assert k == |s|;
      assert s[..k] == s;
    }
  }

  const Plus: seq<Range> := [Range('+', '+')]
  const NonZeroDigit: seq<Range> := [Range('1', '9')]
  const Digit: seq<Range> := [Range('0', '9')]

  /** `^\+?[1-9]\d{1,14}$`. */
  const PhonePattern: seq<Term> := [Term(Plus, 0, Some(1)), Term(NonZeroDigit, 1, Some(1)), Term(Digit, 1, Some(14))]

  /** `[a-zA-Z0-9_-]`. */
  const UsernameClass: seq<Range> := [Range('a', 'z'), Range('A', 'Z'), Range('0', '9'), Range('_', '_'), Range('-', '-')]

  /** `^[a-zA-Z0-9_-]+$`. */
  const UsernamePattern: seq<Term> := [Term(UsernameClass, 1, None)]

  predicate UsernameChar(c: char) {
    'a' <= c <= 'z' || 'A' <= c <= 'Z' || '0' <= c <= '9' || c == '_' || c == '-'
  }

  /** The digits of a phone number: a leading digit 1-9 and 1 to 14 more. */
  predicate PhoneDigits(d: string) {
    2 <= |d| <= 15 && '1' <= d[0] <= '9' && forall i :: 1 <= i < |d| ==> IsDigit(d[i])
  }

  /** An optional "+" and then the digits. */
  predicate IsPhone(s: string) {
    if s != [] && s[0] == '+' then PhoneDigits(s[1..]) else PhoneDigits(s)
  }

  lemma {:induction false} PhoneTail(r: string)
    ensures Matches(PhonePattern[1..], r) <==> PhoneDigits(r)
  {
    var ts := PhonePattern[1..];
    assert ts[1..] == [Term(Digit, 1, Some(14))];
    if PhoneDigits(r) {
      MatchesOne(Term(Digit, 1, Some(14)), r[1..]);
      InRange(r[0], NonZeroDigit, 0);
      assert AllIn(r[..1], ts[0].cls);
      assert AllIn(r[1..], Digit) by {
        forall i | 0 <= i < |r[1..]| ensures InClass(r[1..][i], Digit) {
          assert IsDigit(r[i + 1]);
          InRange(r[1..][i], Digit, 0);
        }
      }
    }
    if Matches(ts, r) {
      var k :| 0 <= k <= |r| && ts[0].min <= k && WithinMax(k, ts[0])
        && AllIn(r[..k], ts[0].cls) && Matches(ts[1..], r[k..]);
      assert k == 1;
      MatchesOne(Term(Digit, 1, Some(14)), r[1..]);
      assert InClass(r[..1][0], NonZeroDigit);
      forall i | 1 <= i < |r| ensures IsDigit(r[i]) {
        assert InClass(r[1..][i - 1], Digit);
      }
    }
  }

  /** What the phone pattern accepts: an optional "+", a digit 1-9, then 1
      to 14 digits, so 2 to 15 digits in all. */
  lemma {:induction false} PhonePatternMeaning(s: string)
    ensures Matches(PhonePattern, s) <==> IsPhone(s)
  {
    PhoneTail(s);
    assert PhonePattern[0].min == 0;
    assert s[..0] == [] && s[0..] == s;
    if s != [] {
      PhoneTail(s[1..]);
    }
    if s != [] && s[0] == '+' {
      InRange(s[0], Plus, 0);
      assert AllIn(s[..1], Plus);
    }
    if Matches(PhonePattern, s) {
      var k :| 0 <= k <= |s| && PhonePattern[0].min <= k && WithinMax(k, PhonePattern[0])
        && AllIn(s[..k], PhonePattern[0].cls) && Matches(PhonePattern[1..], s[k..]);
      if k == 1 {
        assert InClass(s[..1][0], Plus);
      } else {
        assert k == 0;
      }
    }
  }

  /** What the username pattern accepts: one or more of letters, digits,
      "_" and "-". */
  lemma {:induction false} UsernamePatternMeaning(s: string)
    ensures Matches(UsernamePattern, s) <==> s != [] && forall i :: 0 <= i < |s| ==> UsernameChar(s[i])
  {
    MatchesOne(Term(UsernameClass, 1, None), s);
    forall c: char ensures InClass(c, UsernameClass) <==> UsernameChar(c) {
      if UsernameChar(c) {
        if 'a' <= c <= 'z' { InRange(c, UsernameClass, 0); }
        else if 'A' <= c <= 'Z' { InRange(c, UsernameClass, 1); }
        else if '0' <= c <= '9' { InRange(c, UsernameClass, 2); }
        else if c == '_' { InRange(c, UsernameClass, 3); }
        else { InRange(c, UsernameClass, 4); }
      }
    }
  }
}
