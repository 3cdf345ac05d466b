/**
 * Modifier-key sets: which keys must be held to move a window and which to
 * resize one. A set ranges over the five keys of the vocabulary; the flags of
 * an observed event are a raw 64-bit `CGEventFlags` word, of which only the
 * five vocabulary bits are looked at.
 */
module Modifiers {

  datatype Modifier = Shift | Control | Alt | Command | Fn

  type ModifierSet = set<Modifier>

  /** The raw `CGEventFlags` word of an event. */
  type EventFlags = bv64

  /** The `CGEventFlags` bit of each key; a modifier's raw value is this mask. */
  function Mask(m: Modifier): bv64
  {
    match m
    case Shift => 0x2_0000     // maskShift
    case Control => 0x4_0000   // maskControl
    case Alt => 0x8_0000       // maskAlternate
    case Command => 0x10_0000  // maskCommand
    case Fn => 0x80_0000       // maskSecondaryFn
  }

  /** Caps lock (`maskAlphaShift`), a flag bit outside the vocabulary. */
  const AlphaShift: bv64 := 0x1_0000

  /** All five vocabulary bits together. */
  const VocabularyMask: bv64 := 0x9E_0000

  const AllModifiers: set<Modifier> := {Shift, Control, Alt, Command, Fn}

  lemma InVocabulary(m: Modifier)
    ensures m in AllModifiers
    ensures Mask(m) & VocabularyMask == Mask(m)
  {
  }

  predicate IsHeld(flags: EventFlags, m: Modifier)
  {
    flags & Mask(m) != 0
  }

  /** The vocabulary keys whose bit is present in `flags`. */
  function Held(flags: EventFlags): (s: ModifierSet)
    ensures forall m :: m in s <==> IsHeld(flags, m)
  {
    forall m ensures m in AllModifiers { InVocabulary(m); }
    set m | m in AllModifiers && IsHeld(flags, m)
  }

  predicate IsEmpty(s: ModifierSet)
  {
    s == {}
  }

  /**
   * `exclusivelySet(in:)`: the event holds exactly the keys of `s`, as far as
   * the vocabulary goes; every other flag bit is ignored.
   */
  function ExclusivelySet(s: ModifierSet, flags: EventFlags): (r: bool)
    ensures r <==> forall m :: m in s <==> IsHeld(flags, m)
  {
    s == Held(flags)
  }

  /** `toggle(_:)`: a new set with exactly the bit of `m` flipped. */
  function Toggle(s: ModifierSet, m: Modifier): (r: ModifierSet)
    ensures m in r <==> m !in s
    ensures forall n :: n != m ==> (n in r <==> n in s)
  {
    if m in s then s - {m} else s + {m}
  }

  /** Toggling the same key twice gives the set back. */
  lemma ToggleInvolutive(s: ModifierSet, m: Modifier)
    ensures Toggle(Toggle(s, m), m) == s
  {
  }

  /** Bits outside the vocabulary never change whether a set matches. */
  lemma ExtraBitsIgnored(s: ModifierSet, flags: EventFlags, extra: bv64)
    requires extra & VocabularyMask == 0
    ensures ExclusivelySet(s, flags | extra) == ExclusivelySet(s, flags)
  {
    forall m ensures IsHeld(flags | extra, m) == IsHeld(flags, m) {
      InVocabulary(m);
    }
    assert Held(flags | extra) == Held(flags);
  }

  /**
   * Two sets that both match the same event are the same set: a move set and
   * a resize set can only match together when they are configured alike.
   */
  lemma MatchIsUnique(s1: ModifierSet, s2: ModifierSet, flags: EventFlags)
    requires ExclusivelySet(s1, flags) && ExclusivelySet(s2, flags)
    ensures s1 == s2
  {
  }

  /** The empty set matches exactly the events that hold no vocabulary key. */
  lemma EmptyMatchesUnmodified(flags: EventFlags)
    ensures ExclusivelySet({}, flags) <==> flags & VocabularyMask == 0
  {
    if flags & VocabularyMask == 0 {
      forall m ensures !IsHeld(flags, m) { InVocabulary(m); }
    } else {
      assert IsHeld(flags, Shift) || IsHeld(flags, Control) || IsHeld(flags, Alt)
        || IsHeld(flags, Command) || IsHeld(flags, Fn);
    }
  }

  /** The modifier cases of the unit tests, with their extraneous bits. */
  lemma ExclusivelySetExamples()
    ensures ExclusivelySet({Fn, Control}, Mask(Fn) | Mask(Control))
    ensures ExclusivelySet({Fn, Control}, Mask(Fn) | Mask(Control) | 0x1)
    ensures ExclusivelySet({Fn, Control}, Mask(Fn) | Mask(Control) | AlphaShift)
    ensures !ExclusivelySet({Fn, Control}, Mask(Fn))
    ensures ExclusivelySet({Shift}, Mask(Shift) | 0x22)
  {
    var f := Mask(Fn) | Mask(Control);
    assert Held(f) == {Fn, Control} by {
      forall m ensures m in Held(f) <==> m in {Fn, Control} { InVocabulary(m); }
    }
    ExtraBitsIgnored({Fn, Control}, f, 0x1);
    ExtraBitsIgnored({Fn, Control}, f, AlphaShift);
    assert !IsHeld(Mask(Fn), Control);
    assert Held(Mask(Shift)) == {Shift} by {
      forall m ensures m in Held(Mask(Shift)) <==> m in {Shift} { InVocabulary(m); }
    }
    ExtraBitsIgnored({Shift}, Mask(Shift), 0x22);
  }

  /** The toggle cases of the unit tests. */
  lemma ToggleExamples()
    ensures Toggle({Fn, Control, Alt}, Control) == {Fn, Alt}
    ensures Toggle({Fn, Control, Alt}, Command) == {Fn, Control, Alt, Command}
  {
  }
}
