/** StaticMeshActorUtil.sm: the number appended to a class name to name a new
    export, one more than the largest number already used after that class
    name, or 0 when none is. */
module ActorNaming {
  import opened JavaLib
  import opened JavaText

  /** `name` matches the pattern clazz + "\\d+": the class name, then one or
      more ASCII digits (Java's \d without UNICODE_CHARACTER_CLASS). */
  predicate Numbered(clazz: string, name: string)
  {
    |name| > |clazz| && name[..|clazz|] == clazz
    && forall i :: |clazz| <= i < |name| ==> IsDigit(name[i])
  }

  /** name.substring(clazz.length()) of a numbered name. */
  function Suffix(clazz: string, name: string): (d: string)
    requires Numbered(clazz, name)
    ensures |d| >= 1 && forall i :: 0 <= i < |d| ==> IsDigit(d[i])
  {
    name[|clazz|..]
  }

  /** The value of a numbered name's suffix, before Integer.parseInt checks its range. */
  function SuffixValue(clazz: string, name: string): nat
    requires Numbered(clazz, name)
  {
    DigitsValue(Suffix(clazz, name))
  }

  /** The stream of parseInt results, reduced by max(): None when no name is
      numbered, NumberFormatException when a suffix exceeds Integer.MAX_VALUE. */
  function MaxSuffix(clazz: string, names: seq<string>): (r: Result<Option<Int32>>)
    ensures r.Ok? && r.value.Some? ==> r.value.value >= 0
    ensures r.Err? ==> r.error == NumberFormat
  {
    if names == [] then Ok(None)
    else
      var rest :- MaxSuffix(clazz, names[1..]);
      if !Numbered(clazz, names[0]) then Ok(rest)
      else
        var v :- ParseDigits(Suffix(clazz, names[0]));
        Ok(Some(match rest
          case None => v
          case Some(m) => if v > m then v else m))
  }

  /** sm: 1 + max().orElse(-1), in int arithmetic. */
  function Sm(clazz: string, names: seq<string>): (r: Result<Int32>)
    ensures r.Err? ==> r.error == NumberFormat
    ensures r.Ok? ==> r.value >= 0 || r.value == -TWO_31
    ensures r.Ok? && (forall n :: n in names ==> !Numbered(clazz, n)) ==> r.value == 0
  {
    var m :- MaxSuffix(clazz, names);
    MaxSuffixIsMax(clazz, names);
    Ok(Wrap32(1 + match m case None => -1 case Some(v) => v))
  }

  /** max() is an upper bound of every numbered suffix, it is attained, and it
      is absent exactly when no name is numbered. */
  lemma {:induction false} MaxSuffixIsMax(clazz: string, names: seq<string>)
    requires MaxSuffix(clazz, names).Ok?
    ensures var m := MaxSuffix(clazz, names).value;
      (m.None? <==> forall n :: n in names ==> !Numbered(clazz, n))
      && (m.Some? ==> forall n :: n in names && Numbered(clazz, n) ==> SuffixValue(clazz, n) <= m.value)
      && (m.Some? ==> exists n :: n in names && Numbered(clazz, n) && SuffixValue(clazz, n) == m.value)
    decreases |names|
  {
    if names != [] {
      MaxSuffixIsMax(clazz, names[1..]);
      assert forall n :: n in names <==> n == names[0] || n in names[1..];
    }
  }

  /** parseInt throws exactly when some numbered suffix is beyond Integer.MAX_VALUE. */
  lemma {:induction false} MaxSuffixFails(clazz: string, names: seq<string>)
    ensures MaxSuffix(clazz, names).Err?
        <==> exists n :: n in names && Numbered(clazz, n) && SuffixValue(clazz, n) >= TWO_31
    ensures MaxSuffix(clazz, names).Err? ==> MaxSuffix(clazz, names).error == NumberFormat
    decreases |names|
  {
    if names != [] {
      MaxSuffixFails(clazz, names[1..]);
      assert forall n :: n in names <==> n == names[0] || n in names[1..];
    }
  }

  /** The name the caller builds, clazz + sm, is not yet an export name,
      unless the increment wrapped past Integer.MAX_VALUE. */
  lemma SmIsFresh(clazz: string, names: seq<string>)
    requires Sm(clazz, names).Ok? && Sm(clazz, names).value >= 0
    ensures clazz + Decimal(Sm(clazz, names).value) !in names
  {
    var k := Sm(clazz, names).value;
    var name := clazz + Decimal(k);
    DecimalRoundTrip(k);
    MaxSuffixIsMax(clazz, names);
    assert name[..|clazz|] == clazz && name[|clazz|..] == Digits(k);
    assert Numbered(clazz, name);
    assert SuffixValue(clazz, name) == k;
  }

  /** With no numbered name the first number is 0. */
  lemma SmStartsAtZero(clazz: string, names: seq<string>)
    requires forall n :: n in names ==> !Numbered(clazz, n)
    ensures Sm(clazz, names) == Ok(0)
  {
    MaxSuffixFails(clazz, names);
    MaxSuffixIsMax(clazz, names);
  }

  /** The result is negative only when Integer.MAX_VALUE itself is taken: 1 + max wraps. */
  lemma SmWraps(clazz: string, names: seq<string>)
    requires Sm(clazz, names).Ok? && Sm(clazz, names).value < 0
    ensures Sm(clazz, names).value == -TWO_31
    ensures exists n :: n in names && Numbered(clazz, n) && SuffixValue(clazz, n) == TWO_31 - 1
  {
    MaxSuffixIsMax(clazz, names);
  }
}
