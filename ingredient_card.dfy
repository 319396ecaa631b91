/** The view logic of src/components/IngredientCard.tsx: the class and the
 *  label of an ingredient's type, the collapsed description, and the order
 *  in which `IngredientList` shows the ingredients. The `expanded` flag is a
 *  parameter. */
module IngredientCard {
  import opened Common
  import opened Types

  // ---------------------------------------------------------------------------
  // getTypeClass

  const TYPE_CLASSES: map<string, string> := map[
    "natural" := "ingredient-natural",
    "preservative" := "ingredient-preservative",
    "artificial_color" := "ingredient-artificial_color",
    "sweetener" := "ingredient-sweetener",
    "emulsifier" := "ingredient-emulsifier"
  ]

  const DEFAULT_TYPE_CLASS := "bg-muted text-muted-foreground border border-border"

  /** `getTypeClass`: the mapped class of a known type, the neutral class otherwise. */
  function TypeClass(itype: string): (c: string)
    ensures itype in TYPE_CLASSES ==> c == TYPE_CLASSES[itype]
    ensures itype !in TYPE_CLASSES ==> c == DEFAULT_TYPE_CLASS
    ensures c != ""
  {
    Or(if itype in TYPE_CLASSES then TYPE_CLASSES[itype] else "", DEFAULT_TYPE_CLASS)
  }

  // ---------------------------------------------------------------------------
  // formatType

  /** A character `\w` matches: an ASCII letter, a digit or '_'. */
  predicate IsWordChar(c: char) {
    'a' <= c <= 'z' || 'A' <= c <= 'Z' || '0' <= c <= '9' || c == '_'
  }

  /** `\b\w` matches at `i`: a word character with no word character before it. */
  predicate WordStart(s: string, i: int)
    requires 0 <= i < |s|
  {
    IsWordChar(s[i]) && (i == 0 || !IsWordChar(s[i - 1]))
  }

  /** `replace(/_/g, ' ')`. */
  function Spaced(s: string): (r: string)
    ensures |r| == |s| && '_' !in r
    ensures forall i :: 0 <= i < |s| ==> r[i] == (if s[i] == '_' then ' ' else s[i])
  {
    seq(|s|, i requires 0 <= i < |s| => if s[i] == '_' then ' ' else s[i])
  }

  /** `replace(/\b\w/g, c => c.toUpperCase())`, scanning left to right;
      `afterWord` says whether the character before `s` is a word character. */
  function CapitalizeWords(s: string, afterWord: bool): (r: string)
    ensures |r| == |s|
    ensures forall i :: 0 <= i < |s| ==>
              r[i] == if IsWordChar(s[i]) && !(if i == 0 then afterWord else IsWordChar(s[i - 1]))
                      then UpperChar(s[i]) else s[i]
  {
    if s == [] then []
    else
      var head := if IsWordChar(s[0]) && !afterWord then UpperChar(s[0]) else s[0];
      var rest := CapitalizeWords(s[1..], IsWordChar(s[0]));
      var r := [head] + rest;
      forall i | 0 <= i < |s|
        ensures r[i] == if IsWordChar(s[i]) && !(if i == 0 then afterWord else IsWordChar(s[i - 1]))
                        then UpperChar(s[i]) else s[i]
      {
        if i > 0 {
          assert r[i] == rest[i - 1] && s[1..][i - 1] == s[i];
          if i > 1 {
            assert s[1..][i - 2] == s[i - 1];
          }
        }
      }
      r
  }

  /** `formatType`: underscores become spaces and the first character of
      each word is upper-cased; nothing else changes. */
  function FormatType(itype: string): (r: string)
    ensures |r| == |itype| && '_' !in r
    ensures forall i :: 0 <= i < |itype| && itype[i] == '_' ==> r[i] == ' '
    ensures forall i :: 0 <= i < |itype| ==>
              r[i] == if WordStart(Spaced(itype), i) then UpperChar(Spaced(itype)[i]) else Spaced(itype)[i]
  {
    var s := Spaced(itype);
    var r := CapitalizeWords(s, false);
    forall i | 0 <= i < |itype|
      ensures r[i] == if WordStart(s, i) then UpperChar(s[i]) else s[i]
      ensures r[i] != '_' && (itype[i] == '_' ==> r[i] == ' ')
    {
      assert s[i] != '_';
      assert r[i] == if IsWordChar(s[i]) && !(if i == 0 then false else IsWordChar(s[i - 1]))
                     then UpperChar(s[i]) else s[i];
      if WordStart(s, i) {
        assert r[i] == UpperChar(s[i]);
      } else {
        assert r[i] == s[i];
      }
    }
    r
  }

  /** Upper-casing keeps a character a word character, or not, and is idempotent. */
  lemma UpperCharKeepsWordChar(c: char)
    ensures IsWordChar(UpperChar(c)) == IsWordChar(c)
    ensures UpperChar(UpperChar(c)) == UpperChar(c)
  {
  }

  /** Formatting a label that is already formatted changes nothing. */
  lemma FormatTypeIdempotent(itype: string)
    ensures FormatType(FormatType(itype)) == FormatType(itype)
  {
    var s, r := Spaced(itype), FormatType(itype);
    var rs := Spaced(r);
    forall i | 0 <= i < |r|
      ensures rs[i] == r[i] && IsWordChar(r[i]) == IsWordChar(s[i])
    {
      assert r[i] != '_';
      UpperCharKeepsWordChar(s[i]);
    }
    var rr := FormatType(r);
    forall i | 0 <= i < |r|
      ensures rr[i] == r[i]
    {
      assert rr[i] == if WordStart(rs, i) then UpperChar(rs[i]) else rs[i];
      assert WordStart(rs, i) == WordStart(s, i);
      if WordStart(s, i) {
        UpperCharKeepsWordChar(s[i]);
      }
    }
  }

  /** A type with no underscore and a single leading lower-case letter is
      shown with that letter upper-cased and the rest unchanged, e.g. `natural`. */
  lemma FormatSingleWord(itype: string)
    requires |itype| > 0 && 'a' <= itype[0] <= 'z'
    requires forall i :: 0 < i < |itype| ==> 'a' <= itype[i] <= 'z'
    ensures FormatType(itype) == [UpperChar(itype[0])] + itype[1..]
  {
    var s, r := Spaced(itype), FormatType(itype);
    forall i | 0 <= i < |itype|
      ensures r[i] == ([UpperChar(itype[0])] + itype[1..])[i]
    {
      assert s[i] == itype[i];
      if i > 0 {
        assert s[i - 1] == itype[i - 1];
        assert !WordStart(s, i);
      }
    }
  }

  // ---------------------------------------------------------------------------
  // description

  const TRUNCATE_AT := 100

  /** `shouldTruncate`. */
  predicate ShouldTruncate(description: string) {
    |description| > TRUNCATE_AT
  }

  /** The description shown: all of it when expanded; otherwise its first 100
      characters, followed by "..." when it was cut. */
  function DisplayDescription(description: string, expanded: bool): (r: string)
    ensures expanded ==> r == description
    ensures !expanded && !ShouldTruncate(description) ==> r == description
    ensures !expanded && ShouldTruncate(description) ==>
              r == description[..TRUNCATE_AT] + "..." && |r| == TRUNCATE_AT + 3
    ensures |r| <= |description| || |r| == TRUNCATE_AT + 3
    ensures !expanded ==> |r| <= TRUNCATE_AT + 3 && description[..Min(|description|, TRUNCATE_AT)] <= r
  {
    if expanded then description
    else description[..Min(|description|, TRUNCATE_AT)] + (if ShouldTruncate(description) then "..." else "")
  }

  // ---------------------------------------------------------------------------
  // IngredientList

  /** Non-decreasing by health score. */
  predicate SortedByScore(s: seq<Ingredient>) {
    forall i, j :: 0 <= i < j < |s| ==> s[i].healthScore <= s[j].healthScore
  }

  /** Puts `x` after every element of `sorted` whose score does not exceed its own. */
  function Insert(sorted: seq<Ingredient>, x: Ingredient): (r: seq<Ingredient>)
    ensures |r| == |sorted| + 1
    ensures multiset(r) == multiset(sorted) + multiset{x}
  {
    if sorted == [] then [x]
    else
      var last := sorted[|sorted| - 1];
      var front := sorted[..|sorted| - 1];
      assert sorted == front + [last];
      if last.healthScore <= x.healthScore then sorted + [x]
      else Insert(front, x) + [last]
  }

  /** Inserting keeps every score under a common bound. */
  lemma {:induction false} InsertBelow(sorted: seq<Ingredient>, x: Ingredient, bound: real)
    requires forall i :: 0 <= i < |sorted| ==> sorted[i].healthScore <= bound
    requires x.healthScore <= bound
    ensures forall i :: 0 <= i < |Insert(sorted, x)| ==> Insert(sorted, x)[i].healthScore <= bound
  {
    if sorted != [] {
      var last := sorted[|sorted| - 1];
      var front := sorted[..|sorted| - 1];
      if x.healthScore < last.healthScore {
        InsertBelow(front, x, bound);
      }
    }
  }

  /** Inserting into a sorted list keeps it sorted. */
  lemma {:induction false} InsertSorted(sorted: seq<Ingredient>, x: Ingredient)
    requires SortedByScore(sorted)
    ensures SortedByScore(Insert(sorted, x))
  {
    if sorted != [] {
      var last := sorted[|sorted| - 1];
      var front := sorted[..|sorted| - 1];
      if x.healthScore < last.healthScore {
        assert SortedByScore(front);
        InsertSorted(front, x);
        InsertBelow(front, x, last.healthScore);
        var r := Insert(front, x);
        assert Insert(sorted, x) == r + [last];
      }
    }
  }

  /** The order of `[...ingredients].sort((a, b) => a.health_score - b.health_score)`:
      an insertion sort that keeps equal scores in input order. */
  function SortByScore(s: seq<Ingredient>): (r: seq<Ingredient>)
    ensures SortedByScore(r)
    ensures multiset(r) == multiset(s) && |r| == |s|
  {
    if s == [] then []
    else
      assert s == s[..|s| - 1] + [s[|s| - 1]];
      InsertSorted(SortByScore(s[..|s| - 1]), s[|s| - 1]);
      Insert(SortByScore(s[..|s| - 1]), s[|s| - 1])
  }

  /** An already sorted list keeps its order. */
  lemma {:induction false} SortByScoreKeepsSorted(s: seq<Ingredient>)
    requires SortedByScore(s)
    ensures SortByScore(s) == s
  {
    if s != [] {
      var front, last := s[..|s| - 1], s[|s| - 1];
      assert SortedByScore(front) by {
        forall i, j | 0 <= i < j < |front|
          ensures front[i].healthScore <= front[j].healthScore
        {
          assert front[i] == s[i] && front[j] == s[j];
        }
      }
      SortByScoreKeepsSorted(front);
      assert SortByScore(s) == Insert(front, last);
      if front != [] {
        assert front[|front| - 1] == s[|s| - 2];
        assert Insert(front, last) == front + [last];
      }
      assert s == front + [last];
    }
  }

  /** `IngredientList`: `None` stands for the "no ingredient information"
      placeholder; otherwise the sorted copy that is shown. */
  function IngredientList(ingredients: seq<Ingredient>): (shown: Option<seq<Ingredient>>)
    ensures shown.None? <==> ingredients == []
    ensures shown.Some? ==> SortedByScore(shown.value) && multiset(shown.value) == multiset(ingredients)
  {
    if ingredients == [] then None else Some(SortByScore(ingredients))
  }
}
