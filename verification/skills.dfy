/**
 * The skills normaliser written twice in the source, once in the task form before
 * the payload is sent and once in the creation endpoint for string input:
 * `s.split(',').map(s => s.trim()).filter(Boolean)`.
 */
module Skills {
  import opened Lists
  import opened Text

  /** `filter(Boolean)` on strings keeps exactly the non-empty ones. */
  predicate NonEmpty(s: string)
  {
    s != ""
  }

  /** A well-formed skill: non-empty, trimmed and free of the comma separator. */
  predicate IsSkill(s: string)
  {
    s != "" && IsTrimmed(s) && ',' !in s
  }

  /** The comma-separated pieces of `s`, each trimmed, with the empty ones dropped. */
  function SplitSkills(s: string): seq<string>
  {
    Filter(Map(Split(s, ','), Trim), NonEmpty)
  }

  /** Every skill the normaliser yields is non-empty, trimmed and comma-free. */
  lemma SplitSkillsAreSkills(s: string)
    ensures forall k :: 0 <= k < |SplitSkills(s)| ==> IsSkill(SplitSkills(s)[k])
  {
    var pieces := Split(s, ',');
    var trimmed := Map(pieces, Trim);
    forall k | 0 <= k < |trimmed|
      ensures IsTrimmed(trimmed[k]) && ',' !in trimmed[k]
    {
      TrimSpec(pieces[k]);
      assert forall c :: c in trimmed[k] ==> c in pieces[k];
    }
    FilterMembers(trimmed, NonEmpty);
  }

  /** The kept skills appear in the order their pieces had in the input. */
  lemma SplitSkillsInInputOrder(s: string)
    ensures IsSubsequence(SplitSkills(s), Map(Split(s, ','), Trim))
  {
    FilterIsSubsequence(Map(Split(s, ','), Trim), NonEmpty);
  }

  /** Every piece that is non-empty after trimming is kept, as often as it occurs. */
  lemma SplitSkillsKeepsEveryNonEmptyPiece(s: string, skill: string)
    requires skill != ""
    ensures multiset(SplitSkills(s))[skill] == multiset(Map(Split(s, ','), Trim))[skill]
  {
    FilterCount(Map(Split(s, ','), Trim), NonEmpty, skill);
  }

  /**
   * Listing skills with ", " between them, as a user types them, and splitting the
   * result gives back exactly the list.
   */
  lemma SplitSkillsOfJoin(skills: seq<string>)
    requires forall k :: 0 <= k < |skills| ==> IsSkill(skills[k])
    ensures SplitSkills(Join(skills, ", ")) == skills
  {
    if skills == [] {
      SplitSkillsOfEmpty();
    } else {
      SplitSkillsOfLeadingSpace("", skills);
      assert "" + Join(skills, ", ") == Join(skills, ", ");
    }
  }

  /** The empty text holds no skill. */
  lemma SplitSkillsOfEmpty()
    ensures SplitSkills("") == []
  {
    SplitSkillsOfOnePiece("");
    TrimAfterWhitespace("", "");
  }

  /** Regrouping `w + (a + ", " + b)` around its comma. */
  lemma RegroupAtComma(w: string, a: string, b: string)
    ensures w + (a + ", " + b) == (w + a) + [','] + (" " + b)
  {
    assert ", " == [','] + " ";
  }

  lemma {:induction false} SplitSkillsOfLeadingSpace(w: string, skills: seq<string>)
    requires forall k :: 0 <= k < |w| ==> IsWhitespace(w[k])
    requires skills != []
    requires forall k :: 0 <= k < |skills| ==> IsSkill(skills[k])
    ensures SplitSkills(w + Join(skills, ", ")) == skills
    decreases |skills|
  {
    var first := w + skills[0];
    PieceSkillOfPadded(w, skills[0]);
    if |skills| == 1 {
      assert w + Join(skills, ", ") == first;
      SplitSkillsOfOnePiece(first);
    } else {
      var tail := Join(skills[1..], ", ");
      assert Join(skills, ", ") == skills[0] + ", " + tail;
      RegroupAtComma(w, skills[0], tail);
      SplitSkillsOfPieces(first, " " + tail);
      SplitSkillsOfLeadingSpace(" ", skills[1..]);
      assert [skills[0]] + skills[1..] == skills;
    }
  }

  /** The skill a single comma-free piece contributes: its trimmed text, if any. */
  function PieceSkill(piece: string): seq<string>
  {
    if Trim(piece) == "" then [] else [Trim(piece)]
  }

  lemma SplitSkillsOfOnePiece(piece: string)
    requires ',' !in piece
    ensures SplitSkills(piece) == PieceSkill(piece)
  {
    SplitNoSeparator(piece, ',');
    var trimmed := Map([piece], Trim);
    assert trimmed == [Trim(piece)];
    assert Filter(trimmed, NonEmpty) == PieceSkill(piece);
  }

  lemma SplitSkillsOfPieces(piece: string, rest: string)
    requires ',' !in piece
    ensures SplitSkills(piece + [','] + rest) == PieceSkill(piece) + SplitSkills(rest)
  {
    SplitPrefix(piece, ',', rest);
    var pieces := Split(rest, ',');
    MapAppend([piece], pieces, Trim);
    var head := Map([piece], Trim);
    assert head == [Trim(piece)];
    var trimmed := Map(pieces, Trim);
    assert Map([piece] + pieces, Trim) == head + trimmed;
    FilterAppend(head, trimmed, NonEmpty);
    assert Filter(head, NonEmpty) == PieceSkill(piece);
  }

  lemma SplitSkillsOfThreePieces(a: string, b: string, c: string)
    requires ',' !in a && ',' !in b && ',' !in c
    ensures SplitSkills(a + [','] + (b + [','] + c)) == PieceSkill(a) + (PieceSkill(b) + PieceSkill(c))
  {
    SplitSkillsOfPieces(a, b + [','] + c);
    SplitSkillsOfPieces(b, c);
    SplitSkillsOfOnePiece(c);
  }

  lemma PieceSkillOfPadded(w: string, x: string)
    requires forall k :: 0 <= k < |w| ==> IsWhitespace(w[k])
    requires IsSkill(x)
    ensures ',' !in w + x && PieceSkill(w + x) == [x]
  {
    TrimAfterWhitespace(w, x);
  }

  /**
   * The worked example `"Figma, Illustrator,  Photoshop"`, for any three skills: the
   * padding after each comma, one space or two, is trimmed away.
   */
  lemma SplitSkillsExample(x: string, y: string, z: string)
    requires IsSkill(x) && IsSkill(y) && IsSkill(z)
    ensures SplitSkills(x + ", " + y + ",  " + z) == [x, y, z]
  {
    var b, c := " " + y, "  " + z;
    ExampleRegrouped(x, y, z);
    PieceSkillOfPadded("", x);
    assert "" + x == x;
    PieceSkillOfPadded(" ", y);
    PieceSkillOfPadded("  ", z);
    SplitSkillsOfThreePieces(x, b, c);
  }

  lemma ExampleRegrouped(x: string, y: string, z: string)
    ensures x + ", " + y + ",  " + z == x + [','] + ((" " + y) + [','] + ("  " + z))
  {
    assert ", " == [','] + " ";
    assert ",  " == [','] + "  ";
  }

  /** A lone comma is a non-empty string but holds no skill at all. */
  lemma SplitSkillsOfLoneComma()
    ensures SplitSkills(",") == []
  {
    SplitPrefix("", ',', "");
    assert "" + [','] + "" == ",";
    assert Split(",", ',') == ["", ""];
    assert Trim("") == "";
    assert Map(["", ""], Trim) == ["", ""];
  }
}
