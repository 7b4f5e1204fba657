/**
 * `KeyboardModifier`: a `u32` bit set over eight modifier flags, its
 * `Display` (the names of the set flags, in a fixed order, formatted as a
 * debug list of strings) and the masking that `get_modifiers` applies to
 * the value wlroots reports.
 */
module KeyboardModifier {

  /** The bits of a `KeyboardModifier`. */
  type Bits = bv32

  // The flag values are those of `enum wlr_keyboard_modifier` in wlroots
  // (one bit each, from bit 0 up); the proofs rely only on their being
  // eight distinct single bits.
  const Shift: Bits := 1
  const Caps: Bits := 2
  const Ctrl: Bits := 4
  const Alt: Bits := 8
  const Mod2: Bits := 16
  const Mod3: Bits := 32
  const Logo: Bits := 64
  const Mod5: Bits := 128

  /** Every known flag: `KeyboardModifier::all()`. */
  const All: Bits := Shift | Caps | Ctrl | Alt | Mod2 | Mod3 | Logo | Mod5

  /** The names and flags `Display` walks through, in its order. */
  const Table: seq<(string, Bits)> :=
    [("Shift", Shift), ("Caps lock", Caps), ("Ctrl", Ctrl), ("Alt", Alt),
     ("Mod2", Mod2), ("Mod3", Mod3), ("Logo", Logo), ("Mod5", Mod5)]

  /** `KeyboardModifier::contains`. */
  predicate Contains(m: Bits, flag: Bits)
  {
    m & flag == flag
  }

  /** `KeyboardModifier::from_bits_truncate`: drops every bit that is not a known flag. */
  function FromBitsTruncate(bits: Bits): (r: Bits)
    ensures r & !All == 0
    ensures forall i :: 0 <= i < |Table| ==> (Contains(r, Table[i].1) <==> Contains(bits, Table[i].1))
  {
    bits & All
  }

  /** For each table entry, whether `m` contains its flag: the predicate of the filter in `fmt`. */
  function Present(m: Bits): (p: seq<bool>)
    ensures |p| == |Table|
    ensures forall j :: 0 <= j < |Table| ==> (p[j] <==> Contains(m, Table[j].1))
  {
    seq(|Table|, j requires 0 <= j < |Table| => Contains(m, Table[j].1))
  }

  /** The positions of `p` from `i` on whose entry is true, ascending: what the filter keeps. */
  function Kept(p: seq<bool>, i: nat): (r: seq<nat>)
    requires i <= |p|
    ensures forall k :: 0 <= k < |r| ==> i <= r[k] < |p| && p[r[k]]
    decreases |p| - i
  {
    if i == |p| then []
    else (if p[i] then [i] else []) + Kept(p, i + 1)
  }

  /** The table indices of the flags of `m`, ascending. */
  function SetFlags(m: Bits): seq<nat>
  {
    Kept(Present(m), 0)
  }

  /** The names `Display` lists: the filtered entries mapped to their names. */
  function Names(m: Bits): seq<string>
  {
    var flags := SetFlags(m);
    seq(|flags|, k requires 0 <= k < |flags| => Table[flags[k]].0)
  }

  /** `{:?}` of a `Vec<&str>` whose strings need no escaping. */
  function DebugList(items: seq<string>): string
  {
    "[" + Joined(items) + "]"
  }

  function Joined(items: seq<string>): string
    decreases |items|
  {
    if items == [] then ""
    else if |items| == 1 then "\"" + items[0] + "\""
    else "\"" + items[0] + "\", " + Joined(items[1..])
  }

  /** `impl Display for KeyboardModifier`. */
  function Display(m: Bits): (r: string)
    ensures |r| >= 2 && r[0] == '[' && r[|r| - 1] == ']'
  {
    DebugList(Names(m))
  }

  predicate Increasing(r: seq<nat>)
  {
    forall j, k :: 0 <= j < k < |r| ==> r[j] < r[k]
  }

  lemma PrependKeepsIncreasing(i: nat, rest: seq<nat>)
    requires Increasing(rest)
    requires forall k :: 0 <= k < |rest| ==> i < rest[k]
    ensures Increasing([i] + rest)
  {
    var r := [i] + rest;
    forall j, k | 0 <= j < k < |r| ensures r[j] < r[k] {
      assert r[k] == rest[k - 1];
      if j > 0 {
        assert r[j] == rest[j - 1];
      }
    }
  }

  /** The filter keeps the entries' order: its positions strictly increase. */
  lemma {:induction false} KeptIncreasing(p: seq<bool>, i: nat)
    requires i <= |p|
    ensures Increasing(Kept(p, i))
    decreases |p| - i
  {
    if i < |p| {
      KeptIncreasing(p, i + 1);
      if p[i] {
        PrependKeepsIncreasing(i, Kept(p, i + 1));
      }
    }
  }

  /** The filter keeps exactly the true entries from position `i` on. */
  lemma {:induction false} KeptMembers(p: seq<bool>, i: nat)
    requires i <= |p|
    ensures forall j :: i <= j < |p| ==> (j in Kept(p, i) <==> p[j])
    decreases |p| - i
  {
    if i < |p| {
      KeptMembers(p, i + 1);
      assert i !in Kept(p, i + 1);
      assert Kept(p, i) == (if p[i] then [i] else []) + Kept(p, i + 1);
    }
  }

  /**
   * `Display` lists the names of exactly the flags that are set, in the
   * order Shift, Caps lock, Ctrl, Alt, Mod2, Mod3, Logo, Mod5: the table
   * entries it names are those whose flag `m` contains, in increasing
   * table position.
   */
  lemma NamesAreSetFlagsInOrder(m: Bits)
    ensures var flags := SetFlags(m);
      && Names(m) == seq(|flags|, k requires 0 <= k < |flags| => Table[flags[k]].0)
      && (forall j :: 0 <= j < |Table| ==> (j in flags <==> Contains(m, Table[j].1)))
      && Increasing(flags)
  {
    KeptMembers(Present(m), 0);
    KeptIncreasing(Present(m), 0);
  }

  /** Bits outside the known flags never show: truncating does not change what is displayed. */
  lemma TruncateKeepsDisplay(bits: Bits)
    ensures Display(FromBitsTruncate(bits)) == Display(bits)
  {
    assert Present(FromBitsTruncate(bits)) == Present(bits);
  }

  /** The empty modifier set displays as an empty list. */
  lemma DisplayNone()
    ensures Display(0) == "[]"
  {
    var p := Present(0);
    assert p == [false, false, false, false, false, false, false, false];
    assert Kept(p, 8) == [];
    assert Kept(p, 7) == [];
    assert Kept(p, 6) == [];
    assert Kept(p, 5) == [];
    assert Kept(p, 4) == [];
    assert Kept(p, 3) == [];
    assert Kept(p, 2) == [];
    assert Kept(p, 1) == [];
    assert SetFlags(0) == [];
  }

  /** The display is an empty list exactly when no known flag is set. */
  lemma DisplayEmptyIff(m: Bits)
    ensures Display(m) == "[]" <==> forall j :: 0 <= j < |Table| ==> !Contains(m, Table[j].1)
  {
    var p := Present(m);
    if exists j :: 0 <= j < |Table| && Contains(m, Table[j].1) {
      var j :| 0 <= j < |Table| && Contains(m, Table[j].1);
      KeptMembers(p, 0);
      assert j in SetFlags(m);
      var names := Names(m);
      assert names != [];
      assert Joined(names)[0] == '"';
      assert Display(m)[1] == '"';
    }
  }

  /** Ctrl with Shift lists Shift first. */
  lemma NamesOfCtrlShift()
    ensures Names(Ctrl | Shift) == ["Shift", "Ctrl"]
  {
    var p := Present(Ctrl | Shift);
    assert p == [true, false, true, false, false, false, false, false];
    assert Kept(p, 8) == [];
    assert Kept(p, 7) == [];
    assert Kept(p, 6) == [];
    assert Kept(p, 5) == [];
    assert Kept(p, 4) == [];
    assert Kept(p, 3) == [];
    assert Kept(p, 2) == [2];
    assert Kept(p, 1) == [2];
    assert SetFlags(Ctrl | Shift) == [0, 2];
  }
}
