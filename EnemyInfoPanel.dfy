/**
  The static helpers of EnemyInfoPanel.cs: the skill filter behind the enemy's
  skill strip, and the decimal formatters behind its count labels. The panel's
  widget writes (SetInfo, UpdateSkills) are presentation and are not modelled.
*/
module EnemyPanel {
  import opened BattleTypes

  // ---------------------------------------------------------------------------
  // FilterEnemySkills

  /** The kinds the enemy panel shows: everything except Dodge and NormalAttack. */
  predicate Shown(kind: SkillType)
  {
    kind != Dodge && kind != NormalAttack
  }

  /** Whether a list entry survives the filter: it is not null and its kind is shown. */
  predicate Keeps(entry: Option<Skill>)
  {
    entry.Some? && Shown(entry.value.kind)
  }

  /** The filter as a function of the list, built from the back. */
  function FilterSeq(s: seq<Option<Skill>>): (r: seq<Skill>)
    ensures |r| <= |s|
    ensures forall k :: 0 <= k < |r| ==> Shown(r[k].kind)
  {
    if s == [] then []
    else
      var last := s[|s| - 1];
      FilterSeq(s[..|s| - 1]) + (if Keeps(last) then [last.value] else [])
  }

  /** The filter of a list that may be null; a null list gives the empty result. */
  function Filtered(skills: Option<seq<Option<Skill>>>): (r: seq<Skill>)
    ensures skills.Null? ==> r == []
    ensures skills.Some? ==> |r| <= |skills.value|
    ensures forall k :: 0 <= k < |r| ==> Shown(r[k].kind)
  {
    if skills.Null? then [] else FilterSeq(skills.value)
  }

  /**
    FilterEnemySkills: walk the list in order, skip null entries and entries of
    kind Dodge or NormalAttack, and append every other skill.
  */
  method FilterEnemySkills(skills: Option<seq<Option<Skill>>>) returns (result: seq<Skill>)
    ensures skills.Null? ==> result == []
    ensures result == Filtered(skills)
  {
    result := [];
    if skills.Null? {
      return;
    }
    var s := skills.value;
    var i := 0;
    while i < |s|
      invariant 0 <= i <= |s|
      invariant result == FilterSeq(s[..i])
    {
      assert s[..i + 1][..i] == s[..i];
      var entry := s[i];
      if entry.Some? && !(entry.value.kind == Dodge || entry.value.kind == NormalAttack) {
        result := result + [entry.value];
      }
      i := i + 1;
    }
    assert s[..i] == s;
  }

  /** The filter distributes over concatenation, so it keeps the input's order. */
  lemma {:induction false} FilterAppend(a: seq<Option<Skill>>, b: seq<Option<Skill>>)
    ensures FilterSeq(a + b) == FilterSeq(a) + FilterSeq(b)
    decreases |b|
  {
    if b == [] {
      assert a + b == a;
    } else {
      var b0 := b[..|b| - 1];
      assert (a + b)[..|a + b| - 1] == a + b0;
      FilterAppend(a, b0);
    }
  }

  /** A one-entry list keeps its skill exactly when the entry passes. */
  lemma FilterSingle(e: Option<Skill>)
    ensures FilterSeq([e]) == (if Keeps(e) then [e.value] else [])
  {
    assert [e][..0] == [];
  }

  /** A skill is in the result exactly when a non-null entry holds it and its kind is shown. */
  lemma {:induction false} FilterMembership(s: seq<Option<Skill>>, x: Skill)
    ensures x in FilterSeq(s) <==> Some(x) in s && Shown(x.kind)
    decreases |s|
  {
    if s != [] {
      var init := s[..|s| - 1];
      FilterMembership(init, x);
      assert s == init + [s[|s| - 1]];
    }
  }

  /** The number of times a shown skill occurs in the result is the number of entries holding it. */
  lemma {:induction false} FilterCount(s: seq<Option<Skill>>, x: Skill)
    requires Shown(x.kind)
    ensures multiset(FilterSeq(s))[x] == multiset(s)[Some(x)]
    decreases |s|
  {
    if s != [] {
      var init := s[..|s| - 1];
      FilterCount(init, x);
      assert s == init + [s[|s| - 1]];
    }
  }

  /** Properties of the method's result for every input. */
  lemma FilteredFacts(skills: Option<seq<Option<Skill>>>)
    ensures skills.Null? ==> Filtered(skills) == []
    ensures skills.Some? ==> |Filtered(skills)| <= |skills.value|
    ensures forall k :: 0 <= k < |Filtered(skills)| ==>
      Filtered(skills)[k].kind != Dodge && Filtered(skills)[k].kind != NormalAttack
    ensures skills.Some? ==> forall x :: x in Filtered(skills) <==> Some(x) in skills.value && Shown(x.kind)
  {
    if skills.Some? {
      forall x
        ensures x in Filtered(skills) <==> Some(x) in skills.value && Shown(x.kind)
      {
        FilterMembership(skills.value, x);
      }
    }
  }

  // ---------------------------------------------------------------------------
  // Decimal text

  function DigitChar(d: nat): (ch: char)
    requires d < 10
    ensures '0' <= ch <= '9'
  {
    "0123456789"[d]
  }

  function DigitValue(ch: char): (d: nat)
    requires '0' <= ch <= '9'
    ensures d < 10
  {
    (ch as int - '0' as int) as nat
  }

  predicate IsDigits(s: string)
  {
    |s| > 0 && forall k :: 0 <= k < |s| ==> '0' <= s[k] <= '9'
  }

  /** The decimal digits of a natural number, most significant first, no leading zero. */
  function NatToString(n: nat): (s: string)
    ensures IsDigits(s)
    ensures s[0] == '0' ==> n == 0
    decreases n
  {
    if n < 10 then [DigitChar(n)] else NatToString(n / 10) + [DigitChar(n % 10)]
  }

  /** The decimal text of an integer, with a leading '-' when it is negative (`int.ToString()`). */
  function IntToString(n: int): (s: string)
    ensures n >= 0 ==> IsDigits(s)
    ensures n < 0 ==> |s| > 1 && s[0] == '-' && IsDigits(s[1..])
  {
    if n < 0 then "-" + NatToString(-n) else NatToString(n)
  }

  /** Reads a string of digits back as a number. */
  function ParseNat(s: string): nat
    requires IsDigits(s)
    decreases |s|
  {
    if |s| == 1 then DigitValue(s[0])
    else ParseNat(s[..|s| - 1]) * 10 + DigitValue(s[|s| - 1])
  }

  /** Reads a decimal, with an optional leading '-', back as an integer. */
  function ParseInt(s: string): Option<int>
  {
    if |s| > 0 && s[0] == '-' && IsDigits(s[1..]) then Some(-(ParseNat(s[1..]) as int))
    else if IsDigits(s) then Some(ParseNat(s))
    else Null
  }

  lemma DigitRoundTrip(d: nat)
    requires d < 10
    ensures DigitValue(DigitChar(d)) == d
  {
  }

  lemma {:induction false} NatRoundTrip(n: nat)
    ensures ParseNat(NatToString(n)) == n
    decreases n
  {
    DigitRoundTrip(n % 10);
    if n >= 10 {
      var s := NatToString(n);
      assert s[..|s| - 1] == NatToString(n / 10);
      NatRoundTrip(n / 10);
    }
  }

  /** Formatting an integer and reading it back gives the same integer. */
  lemma IntRoundTrip(n: int)
    ensures ParseInt(IntToString(n)) == Some(n)
  {
    var m: nat := if n < 0 then -n else n;
    NatRoundTrip(m);
    ParseSigned(n < 0, NatToString(m));
  }

  /** A digit string, with or without a leading '-', reads back as its value with that sign. */
  lemma ParseSigned(negative: bool, digits: string)
    requires IsDigits(digits)
    ensures ParseInt(if negative then "-" + digits else digits)
         == Some(if negative then -(ParseNat(digits) as int) else ParseNat(digits))
  {
    if negative {
      assert ("-" + digits)[1..] == digits;
    } else {
      assert digits[0] != '-';
    }
  }

  /** The decimal text of an integer never contains the separator '/'. */
  lemma IntToStringHasNoSlash(n: int)
    ensures '/' !in IntToString(n)
  {
    var digits := NatToString(if n < 0 then -n else n);
    assert forall k :: 0 <= k < |digits| ==> digits[k] != '/';
  }

  // ---------------------------------------------------------------------------
  // FormatCount and FormatSpirit

  /** FormatCount: "current/max" when max is positive, otherwise the bare current value. */
  function FormatCount(current: int, max: int): (r: string)
    ensures '/' in r <==> max > 0
    ensures |IntToString(current)| <= |r| && r[..|IntToString(current)|] == IntToString(current)
  {
    IntToStringHasNoSlash(current);
    IntToStringHasNoSlash(max);
    if max > 0 then IntToString(current) + "/" + IntToString(max) else IntToString(current)
  }

  /** FormatSpirit: the bare decimal of the current value. */
  function FormatSpirit(current: int): (r: string)
    ensures '/' !in r
    ensures ParseInt(r) == Some(current)
  {
    IntToStringHasNoSlash(current);
    IntRoundTrip(current);
    IntToString(current)
  }

  /** Reads a count label back: the current value, and the maximum when a '/' is present. */
  function ParseCount(s: string): Option<(int, Option<int>)>
  {
    if '/' in s then
      var k := IndexOfSlash(s);
      var current := ParseInt(s[..k]);
      var max := ParseInt(s[k + 1..]);
      if current.Some? && max.Some? then Some((current.value, Some(max.value))) else Null
    else
      var current := ParseInt(s);
      if current.Some? then Some((current.value, Null)) else Null
  }

  /** The position of the first '/' in a string that has one. */
  function IndexOfSlash(s: string): (k: nat)
    requires '/' in s
    ensures k < |s| && s[k] == '/' && '/' !in s[..k]
  {
    if s[0] == '/' then 0
    else
      assert s == [s[0]] + s[1..];
      IndexOfSlash(s[1..]) + 1
  }

  /**
    A count label determines what it shows: the current value always, and the
    maximum exactly when the maximum is positive.
  */
  lemma FormatCountRoundTrip(current: int, max: int)
    ensures ParseCount(FormatCount(current, max)) == Some((current, if max > 0 then Some(max) else Null))
  {
    IntRoundTrip(current);
    IntToStringHasNoSlash(current);
    var a := IntToString(current);
    if max > 0 {
      IntRoundTrip(max);
      var s := FormatCount(current, max);
      assert s[|a|] == '/';
      assert s[..|a|] == a;
      var k := IndexOfSlash(s);
      assert k == |a|;
      assert s[k + 1..] == IntToString(max);
    }
  }

  /** The spirit label reads back as the spirit value and carries no maximum. */
  lemma FormatSpiritRoundTrip(current: int)
    ensures ParseCount(FormatSpirit(current)) == Some((current, Null))
    ensures FormatSpirit(current) == FormatCount(current, 0)
  {
    IntRoundTrip(current);
    IntToStringHasNoSlash(current);
  }

  /** Different counts give different labels. */
  lemma FormatCountInjective(c1: int, m1: int, c2: int, m2: int)
    requires m1 > 0 && m2 > 0
    requires FormatCount(c1, m1) == FormatCount(c2, m2)
    ensures c1 == c2 && m1 == m2
  {
    FormatCountRoundTrip(c1, m1);
    FormatCountRoundTrip(c2, m2);
  }
}
