// The sampling loop of the password generator (`createPassword`,
// src/App.jsx:40-48). The random source is not modelled: each iteration
// picks, nondeterministically, an index from the range that
// `Math.floor(Math.random() * characterListLength)` can produce.

module Sampling {

  /** How often `for (let i = 0; i < passwordLength; i++)` runs its body. */
  function Iterations(passwordLength: int): nat
  {
    if passwordLength < 0 then 0 else passwordLength
  }

  /** The values `Math.floor(r * len)` takes for `r` in [0, 1): an index of the
      list when the list is non-empty, and 0 when it is empty. */
  predicate IsDrawnIndex(k: int, len: nat)
  {
    if len == 0 then k == 0 else 0 <= k < len
  }

  /** `String.prototype.charAt`: the one-character string at `k`, or the empty
      string when `k` is out of range. */
  function CharAt(s: string, k: int): string
  {
    if 0 <= k < |s| then [s[k]] else ""
  }

  /** The password that the given sequence of drawn indices produces. */
  function Sample(characterList: string, draws: seq<int>): string
  {
    if draws == [] then ""
    else Sample(characterList, draws[..|draws| - 1]) + CharAt(characterList, draws[|draws| - 1])
  }

  /** One character per draw, or none at all when the list is empty. */
  lemma {:induction false} SampleLength(characterList: string, draws: seq<int>)
    requires forall k :: k in draws ==> IsDrawnIndex(k, |characterList|)
    ensures |Sample(characterList, draws)| == if characterList == "" then 0 else |draws|
  {
    if draws != [] {
      var init := draws[..|draws| - 1];
      assert forall k :: k in init ==> k in draws;
      assert draws[|draws| - 1] in draws;
      SampleLength(characterList, init);
    }
  }

  /** Position `i` of the password is the character at the `i`-th drawn index. */
  lemma {:induction false} SampleAt(characterList: string, draws: seq<int>, i: int)
    requires forall k :: k in draws ==> IsDrawnIndex(k, |characterList|)
    requires characterList != "" && 0 <= i < |draws|
    ensures |Sample(characterList, draws)| == |draws|
    ensures 0 <= draws[i] < |characterList| && Sample(characterList, draws)[i] == characterList[draws[i]]
  {
    SampleLength(characterList, draws);
    var init := draws[..|draws| - 1];
    assert forall k :: k in init ==> k in draws;
    assert draws[i] in draws;
    SampleLength(characterList, init);
    if i < |draws| - 1 {
      SampleAt(characterList, init, i);
    }
  }

  /** Every character of the password comes from the list, whatever was drawn. */
  lemma {:induction false} SampleMembers(characterList: string, draws: seq<int>)
    ensures forall i :: 0 <= i < |Sample(characterList, draws)| ==> Sample(characterList, draws)[i] in characterList
  {
    if draws != [] {
      SampleMembers(characterList, draws[..|draws| - 1]);
    }
  }

  /** `createPassword`: append `passwordLength` characters, each picked at a drawn
      index of `characterList`. The ghost `draws` records the indices picked. */
  method CreatePassword(characterList: string, passwordLength: int) returns (password: string, ghost draws: seq<int>)
    ensures |draws| == Iterations(passwordLength)
    ensures forall k :: k in draws ==> IsDrawnIndex(k, |characterList|)
    ensures password == Sample(characterList, draws)
    ensures |password| == if characterList == "" then 0 else Iterations(passwordLength)
    ensures forall i :: 0 <= i < |password| ==> password[i] in characterList
  {
    password := "";
    draws := [];
    var characterListLength := |characterList|;
    var i := 0;
    while i < passwordLength
      invariant 0 <= i && i == |draws|
      invariant passwordLength >= 0 ==> i <= passwordLength
      invariant passwordLength < 0 ==> i == 0
      invariant forall k :: k in draws ==> IsDrawnIndex(k, characterListLength)
      invariant password == Sample(characterList, draws)
      invariant |password| == if characterList == "" then 0 else i
      invariant forall j :: 0 <= j < |password| ==> password[j] in characterList
      decreases passwordLength - i
    {
      assert IsDrawnIndex(0, characterListLength);
      var characterIndex :| IsDrawnIndex(characterIndex, characterListLength);
      password := password + CharAt(characterList, characterIndex);
      ghost var before := draws;
      draws := draws + [characterIndex];
      assert draws[..|draws| - 1] == before;
      i := i + 1;
    }
  }
}
