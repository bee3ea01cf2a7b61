// The secondary-state buffer layout and the additional equations that write
// derivatives into the integrator's buffer `pDot` in place.

module SecondaryStates {
  /** The states packed in the secondary array, in declaration order. */
  datatype SecondaryState = Spin | Theta

  /** Name of the secondary additional state and of its equation. */
  const Key: string := "SecondaryStates"

  /** Declaration order, as returned by values(). */
  const Values: seq<SecondaryState> := [Spin, Theta]

  function Index(s: SecondaryState): nat {
    match s
      case Spin => 0
      case Theta => 3
  }

  function Size(s: SecondaryState): nat {
    match s
      case Spin => 3
      case Theta => 3
  }

  /** Number of secondary states. */
  function Cardinal(): (n: nat)
    ensures n == |Values| && n == 2
  {
    |Values|
  }

  /** Total size of the given states. */
  function SumSizes(states: seq<SecondaryState>): nat {
    if |states| == 0 then 0 else SumSizes(states[..|states| - 1]) + Size(states[|states| - 1])
  }

  /** getFullArraySize: the sizes of all states, accumulated in a loop. */
  method GetFullArraySize() returns (fullArraySize: nat)
    ensures fullArraySize == SumSizes(Values)
  {
    fullArraySize := 0;
    var i := 0;
    while i < |Values|
      invariant 0 <= i <= |Values|
      invariant fullArraySize == SumSizes(Values[..i])
    {
      assert Values[..i + 1][..i] == Values[..i];
      fullArraySize := fullArraySize + Size(Values[i]);
      i := i + 1;
    }
    assert Values[..i] == Values;
  }

  /** The slices are laid out back to back from 0 in declaration order, so
    * they are disjoint and the last one ends at the full size (6). */
  lemma LayoutIsContiguous()
    ensures forall k :: 0 <= k < |Values| ==> Index(Values[k]) == SumSizes(Values[..k])
    ensures SumSizes(Values) == 6
  {
    assert Values[..0] == [];
    assert Values[..1] == [Spin];
    assert Values[..2] == Values;
    assert SumSizes([Spin]) == 3;
  }

  /** Every slot of the secondary array belongs to exactly one state. */
  lemma SlotsBelongToOneState(i: nat)
    requires i < SumSizes(Values)
    ensures exists s: SecondaryState :: Index(s) <= i < Index(s) + Size(s)
    ensures forall s: SecondaryState, t: SecondaryState ::
      Index(s) <= i < Index(s) + Size(s) && Index(t) <= i < Index(t) + Size(t) ==> s == t
  {
    LayoutIsContiguous();
    if i < 3 {
      assert Index(Spin) <= i < Index(Spin) + Size(Spin);
    } else {
      assert Index(Theta) <= i < Index(Theta) + Size(Theta);
    }
  }

  /** extractState: a fresh array holding the state's slice of `source`. */
  method ExtractState(source: array<real>, state: SecondaryState) returns (extraction: array<real>)
    requires Index(state) + Size(state) <= source.Length
    ensures fresh(extraction)
    ensures extraction[..] == source[Index(state)..Index(state) + Size(state)]
  {
    extraction := new real[Size(state)];
    var i := 0;
    while i < Size(state)
      invariant 0 <= i <= Size(state)
      invariant extraction[..i] == source[Index(state)..Index(state) + i]
    {
      extraction[i] := source[Index(state) + i];
      i := i + 1;
    }
  }
}

module AdditionalEquations {
  import opened SecondaryStates
  import RigidBody

  /** The additional states of a spacecraft state, by name. */
  type AdditionalStates = map<string, seq<real>>

  /** `dst` with `src` written from position `at`. */
  function Overwrite(dst: seq<real>, at: nat, src: seq<real>): (r: seq<real>)
    requires at + |src| <= |dst|
    ensures |r| == |dst|
    ensures forall i :: 0 <= i < |r| ==> r[i] == (if at <= i < at + |src| then src[i - at] else dst[i])
  {
    dst[..at] + src + dst[at + |src|..]
  }

  /**
   * System.arraycopy of `length` values of `src` from `srcPos` into `dst` at
   * `dstPos`: either every bound holds and the block is copied, or the copy
   * fails (IndexOutOfBoundsException) before writing anything.
   */
  method ArrayCopy(src: seq<real>, srcPos: nat, dst: array<real>, dstPos: nat, length: nat) returns (ok: bool)
    modifies dst
    ensures ok <==> srcPos + length <= |src| && dstPos + length <= dst.Length
    ensures ok ==> dst[..] == Overwrite(old(dst[..]), dstPos, src[srcPos..srcPos + length])
    ensures !ok ==> dst[..] == old(dst[..])
  {
    ok := srcPos + length <= |src| && dstPos + length <= dst.Length;
    if !ok {
      return;
    }
    var i := 0;
    while i < length
      invariant 0 <= i <= length
      invariant dst[..] == Overwrite(old(dst[..]), dstPos, src[srcPos..srcPos + i])
    {
      dst[dstPos + i] := src[srcPos + i];
      i := i + 1;
    }
  }

  /** How many of `pDot[0], pDot[1], pDot[2] := src[0], src[1], src[2]` happen
    * before an index goes out of bounds. */
  function CopiedComponents(src: seq<real>, pDotLength: nat): (n: nat)
    ensures n <= 3 && n <= |src| && n <= pDotLength
    ensures n == 3 || n == |src| || n == pDotLength
  {
    if |src| < 3 || pDotLength < 3 then (if |src| < pDotLength then |src| else pDotLength) else 3
  }

  /** pDot[0..2] := src[0..2], component after component. */
  method CopyThree(src: seq<real>, pDot: array<real>) returns (ok: bool)
    modifies pDot
    ensures ok <==> CopiedComponents(src, pDot.Length) == 3
    ensures pDot[..] == Overwrite(old(pDot[..]), 0, src[..CopiedComponents(src, pDot.Length)])
  {
    ok := false;
    var i := 0;
    while i < 3
      invariant 0 <= i <= 3 && i <= CopiedComponents(src, pDot.Length)
      invariant pDot[..] == Overwrite(old(pDot[..]), 0, src[..i])
    {
      if i >= |src| || i >= pDot.Length {
        return;
      }
      pDot[i] := src[i];
      i := i + 1;
    }
    ok := true;
  }

  /**
   * SecondaryStatesODE.computeDerivatives: spin' is the "RotAcc" state,
   * copied into the SPIN slice; theta' is the spin, copied from the SPIN slice
   * of the secondary state into the THETA slice. A missing state (Orekit
   * raises an exception) or a copy out of bounds stops the computation with
   * what was written so far. The spacecraft state is not changed.
   */
  method SecondaryStatesDerivatives(s: AdditionalStates, pDot: array<real>) returns (ok: bool)
    modifies pDot
    ensures ok <==> RigidBody.RotAccName in s && |s[RigidBody.RotAccName]| >= 3
                    && Key in s && |s[Key]| >= 3 && pDot.Length >= 6
    ensures ok ==> pDot[..] == Overwrite(Overwrite(old(pDot[..]), Index(Spin), s[RigidBody.RotAccName][..3]),
                                         Index(Theta), s[Key][Index(Spin)..Index(Spin) + 3])
    ensures !(RigidBody.RotAccName in s && |s[RigidBody.RotAccName]| >= 3 && pDot.Length >= 3) ==>
      pDot[..] == old(pDot[..])
    ensures RigidBody.RotAccName in s && |s[RigidBody.RotAccName]| >= 3 && pDot.Length >= 3 && !ok ==>
      pDot[..] == Overwrite(old(pDot[..]), 0, s[RigidBody.RotAccName][..3])
  {
    if RigidBody.RotAccName !in s {
      return false;
    }
    ok := ArrayCopy(s[RigidBody.RotAccName], 0, pDot, Index(Spin), Size(Spin));
    if !ok {
      return;
    }
    if Key !in s {
      return false;
    }
    ok := ArrayCopy(s[Key], Index(Spin), pDot, Index(Theta), Size(Theta));
  }

  /** Name of the SpinODE equation. */
  const SpinOdeName: string := "Spin"

  /** SpinODE.computeDerivatives: pDot[0..3) := the "RotAcc" state. */
  method SpinDerivatives(s: AdditionalStates, pDot: array<real>) returns (ok: bool)
    modifies pDot
    ensures ok <==> RigidBody.RotAccName in s && |s[RigidBody.RotAccName]| >= 3 && pDot.Length >= 3
    ensures ok ==> pDot[..] == Overwrite(old(pDot[..]), 0, s[RigidBody.RotAccName][..3])
    ensures RigidBody.RotAccName !in s ==> pDot[..] == old(pDot[..])
    ensures RigidBody.RotAccName in s ==>
      pDot[..] == Overwrite(old(pDot[..]), 0, s[RigidBody.RotAccName][..CopiedComponents(s[RigidBody.RotAccName], pDot.Length)])
    ensures pDot.Length > 3 ==> pDot[3..] == old(pDot[3..])
  {
    if RigidBody.RotAccName !in s {
      return false;
    }
    ok := CopyThree(s[RigidBody.RotAccName], pDot);
  }

  /** Name of the ThetaODE equation. */
  const ThetaOdeName: string := "Theta"

  /**
   * ThetaODE.computeDerivatives: the "Theta" state is looked up first (and a
   * missing one raises an exception before anything is written); then, when
   * a "Spin" state exists, pDot[0..3) := spin, otherwise pDot is left alone.
   */
  method ThetaDerivatives(s: AdditionalStates, pDot: array<real>) returns (ok: bool)
    modifies pDot
    ensures ThetaOdeName !in s ==> !ok && pDot[..] == old(pDot[..])
    ensures ThetaOdeName in s && SpinOdeName !in s ==> ok && pDot[..] == old(pDot[..])
    ensures ThetaOdeName in s && SpinOdeName in s ==>
      (ok <==> |s[SpinOdeName]| >= 3 && pDot.Length >= 3)
    ensures ok && SpinOdeName in s ==> pDot[..] == Overwrite(old(pDot[..]), 0, s[SpinOdeName][..3])
    ensures ThetaOdeName in s && SpinOdeName in s ==>
      pDot[..] == Overwrite(old(pDot[..]), 0, s[SpinOdeName][..CopiedComponents(s[SpinOdeName], pDot.Length)])
    ensures pDot.Length > 3 ==> pDot[3..] == old(pDot[3..])
  {
    if ThetaOdeName !in s {
      return false;
    }
    if SpinOdeName in s {
      ok := CopyThree(s[SpinOdeName], pDot);
    } else {
      ok := true;
    }
  }
}
