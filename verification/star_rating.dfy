/**
 * The five-star rating control (src/components/shared/star-rating.tsx): which stars
 * are drawn filled, and the click and hover handlers, all inert when read-only.
 */
module Stars {
  import opened Wrappers
  import opened Lists

  /** The stars, numbered from 1. */
  const StarNumbers: seq<int> := [1, 2, 3, 4, 5]

  /** `hoverValue || value`: the hovered star when there is one, otherwise the rating. */
  function Effective(hover: Option<int>, value: int): int
  {
    if hover.Some? && hover.value != 0 then hover.value else value
  }

  /** The filled flag of each star, in order: a star is filled when the effective value reaches it. */
  function Filled(effective: int): seq<bool>
  {
    Map(StarNumbers, star => effective >= star)
  }

  /** The filled stars always come first: a filled star has only filled stars before it. */
  lemma FilledIsPrefix(effective: int)
    ensures forall i, j :: 0 <= i <= j < 5 && Filled(effective)[j] ==> Filled(effective)[i]
  {
  }

  /** How many stars are filled. */
  function FilledCount(effective: int): nat
  {
    |Filter(StarNumbers, star => effective >= star)|
  }

  lemma {:induction false} CountAtLeast(s: seq<int>, v: int)
    requires forall k :: 0 <= k < |s| ==> s[k] == k + 1
    requires 0 <= v <= |s|
    ensures |Filter(s, star => v >= star)| == v
  {
    if s != [] {
      var p := star => v >= star;
      var init := s[..|s| - 1];
      assert s == init + [s[|s| - 1]];
      FilterAppend(init, [s[|s| - 1]], p);
      if v == |s| {
        FilterKeepsAll(init, p);
        assert Filter([s[|s| - 1]], p) == [s[|s| - 1]];
      } else {
        CountAtLeast(init, v);
        assert Filter([s[|s| - 1]], p) == [];
      }
    }
  }

  /** A whole rating v from 0 to 5, with no hover, fills exactly the first v stars. */
  lemma WholeRatingFillsExactly(v: int)
    requires 0 <= v <= 5
    ensures FilledCount(Effective(None, v)) == v
    ensures forall i :: 0 <= i < 5 ==> (Filled(Effective(None, v))[i] <==> i < v)
  {
    CountAtLeast(StarNumbers, v);
  }

  /** One rendered rating control: its props and its hover state. */
  class StarRating {
    const value: int
    const readOnly: bool
    /** Whether an `onChange` callback was given. */
    const hasOnChange: bool
    var hover: Option<int>

    constructor(value: int, readOnly: bool, hasOnChange: bool)
      ensures this.value == value && this.readOnly == readOnly && this.hasOnChange == hasOnChange
      ensures hover == None && Valid()
    {
      this.value := value;
      this.readOnly := readOnly;
      this.hasOnChange := hasOnChange;
      hover := None;
    }

    function Shown(): seq<bool>
      reads this
    {
      Filled(Effective(hover, value))
    }

    /** Hover values are star numbers, and a read-only control never has one. */
    ghost predicate Valid()
      reads this
    {
      && (hover.None? || hover.value in StarNumbers)
      && (readOnly ==> hover.None?)
    }

    /**
     * A click on a star: the value handed to `onChange`, which is that star's number,
     * or none when the control is read-only or has no callback.
     */
    method Click(star: int) returns (changed: Option<int>)
      requires star in StarNumbers
      ensures changed.Some? <==> !readOnly && hasOnChange
      ensures changed.Some? ==> changed.value == star && 1 <= changed.value <= 5
    {
      if !readOnly && hasOnChange {
        changed := Some(star);
      } else {
        changed := None;
      }
    }

    /** Pointer enters a star: it becomes the hover value unless the control is read-only. */
    method MouseEnter(star: int)
      requires Valid() && star in StarNumbers
      modifies this
      ensures Valid()
      ensures hover == if readOnly then old(hover) else Some(star)
      ensures !readOnly ==> Shown() == Filled(star)
      ensures readOnly ==> Shown() == Filled(value)
    {
      if !readOnly {
        hover := Some(star);
      }
    }

    /** Pointer leaves a star: the hover is cleared unless read-only, and the rating shows again. */
    method MouseLeave()
      requires Valid()
      modifies this
      ensures Valid()
      ensures hover == if readOnly then old(hover) else None
      ensures Shown() == Filled(value)
    {
      if !readOnly {
        hover := None;
      }
    }
  }
}
