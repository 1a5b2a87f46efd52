/**
 * The name registry that the manager calls (`register`, `custom`,
 * `unregister`), modelled as the set of display names currently held. A
 * sequential name is `<group>_<ordinal>`, where the group is the configured
 * name template, or the creator's name when the template is blank; `register`
 * takes the least ordinal whose name is not held, so an ordinal freed by
 * `unregister` is the first to be given out again.
 */
module Naming {
  import opened Wrappers
  import opened JavaStrings

  /** Longest display name the game accepts. */
  const MaxNameLength: nat := 16

  function Group(template: string, creatorName: string): string {
    if IsBlank(template) then creatorName else template
  }

  function SequentialName(group: string, ordinal: nat): string {
    group + "_" + NatToString(ordinal)
  }

  lemma SequentialNameInjective(group: string, a: nat, b: nat)
    requires SequentialName(group, a) == SequentialName(group, b)
    ensures a == b
  {
    var p := |group| + 1;
    assert SequentialName(group, a)[p..] == NatToString(a);
    assert SequentialName(group, b)[p..] == NatToString(b);
    NatToStringInjective(a, b);
  }

  /** The names of ordinals 1..k in a group. */
  ghost function SequentialNames(group: string, k: nat): set<string> {
    set j | 1 <= j <= k :: SequentialName(group, j)
  }

  lemma {:induction false} SequentialNamesCount(group: string, k: nat)
    ensures |SequentialNames(group, k)| == k
  {
    if k > 0 {
      SequentialNamesCount(group, k - 1);
      var before := SequentialNames(group, k - 1);
      var x := SequentialName(group, k);
      forall j | 1 <= j <= k - 1
        ensures SequentialName(group, j) != x
      {
        if SequentialName(group, j) == x {
          SequentialNameInjective(group, j, k);
          assert false;
        }
      }
      assert x !in before;
      assert SequentialNames(group, k) == before + {x} by {
        forall n | n in SequentialNames(group, k)
          ensures n in before + {x}
        {
          var j :| 1 <= j <= k && n == SequentialName(group, j);
          assert j < k ==> n in before;
        }
      }
    }
  }

  /** If the names of ordinals 1..k are all held, at least k names are held. */
  lemma HeldBound(held: set<string>, group: string, k: nat)
    requires forall j :: 1 <= j <= k ==> SequentialName(group, j) in held
    ensures k <= |held|
  {
    SequentialNamesCount(group, k);
    SubsetCardinality(SequentialNames(group, k), held);
  }

  lemma {:induction false} SubsetCardinality(a: set<string>, b: set<string>)
    requires a <= b
    ensures |a| <= |b|
    decreases |a|
  {
    if a != {} {
      var x :| x in a;
      SubsetCardinality(a - {x}, b - {x});
    }
  }

  function FirstFree(held: set<string>, group: string, k: nat): (r: nat)
    requires 1 <= k
    requires forall j :: 1 <= j < k ==> SequentialName(group, j) in held
    ensures k <= r
    ensures SequentialName(group, r) !in held
    ensures forall j :: 1 <= j < r ==> SequentialName(group, j) in held
    decreases |held| + 1 - k
  {
    if SequentialName(group, k) !in held then k
    else
      HeldBound(held, group, k);
      FirstFree(held, group, k + 1)
  }

  /** `register`: the least ordinal (from 1) whose name is not held. */
  function Register(held: set<string>, group: string): (ordinal: nat)
    ensures 1 <= ordinal
    ensures SequentialName(group, ordinal) !in held
    ensures forall j :: 1 <= j < ordinal ==> SequentialName(group, j) in held
  {
    FirstFree(held, group, 1)
  }

  /** Once a name is released, `register` gives out that ordinal or a smaller one. */
  lemma RegisterReusesReleased(held: set<string>, group: string, ordinal: nat)
    requires 1 <= ordinal
    ensures Register(held - {SequentialName(group, ordinal)}, group) <= ordinal
  {
  }

  /** Why `custom` refuses a name (`IllegalCustomNameException`). */
  datatype NameError = BlankName | NameTooLong | NameTaken

  /** `custom`: a chosen name is accepted when it is not blank, fits the game's
      length limit, and no live session holds it. */
  function Custom(held: set<string>, name: string): (r: Result<string, NameError>)
    ensures r.Success? <==> !IsBlank(name) && |name| <= MaxNameLength && name !in held
    ensures r.Success? ==> r.value == name
  {
    if IsBlank(name) then Failure(BlankName)
    else if |name| > MaxNameLength then Failure(NameTooLong)
    else if name in held then Failure(NameTaken)
    else Success(name)
  }
}
