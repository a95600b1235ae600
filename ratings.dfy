/**
 * The side-by-side rating page: a table of star ratings for models A and B
 * on five dimensions, the star rows drawn from it, and the Run, Clear and
 * Save buttons.
 *
 * The script names the page's elements through the global scope (`note`,
 * `outA`, `outB`). For `prompt` that lookup finds the browser's own
 * `window.prompt` function first, so Clear and Save touch a `value`
 * property of that function, never the prompt box: `Page.Clear` and
 * `Page.Save` model that, `Page.ClearIntended` and `Page.SaveIntended` the
 * prompt box they were meant for.
 */
module Ratings {
  import opened Wrappers

  /** The `dimensions` array, as the `data-dim` of each row names them. */
  datatype Dimension = Correctness | Clarity | Usefulness | Instruction | Safety

  const Dimensions: seq<Dimension> := [Correctness, Clarity, Usefulness, Instruction, Safety]

  /** The `data-model` of a star box. */
  datatype Side = A | B

  const Sides: seq<Side> := [A, B]

  /** Stars per box: the loop runs `i = 1..5`. */
  const StarCount := 5

  type Table = map<Dimension, map<Side, int>>

  /** Every dimension has an A and a B rating, each between 0 and 5. */
  ghost predicate WellFormed(t: Table)
  {
    && (forall d: Dimension :: d in t)
    && (forall d: Dimension, s: Side :: d in t ==> s in t[d] && 0 <= t[d][s] <= StarCount)
  }

  lemma AllListed(d: Dimension, s: Side)
    ensures d in Dimensions && s in Sides
  {
    match d
    case Correctness => assert Dimensions[0] == d;
    case Clarity => assert Dimensions[1] == d;
    case Usefulness => assert Dimensions[2] == d;
    case Instruction => assert Dimensions[3] == d;
    case Safety => assert Dimensions[4] == d;
  }

  /** `Object.fromEntries(dimensions.map(d => [d, { A: 0, B: 0 }]))`. */
  function InitialTable(): (t: Table)
    ensures WellFormed(t)
    ensures forall d: Dimension :: t[d][A] == 0 && t[d][B] == 0
    ensures forall d: Dimension :: t[d].Keys == {A, B}
  {
    var t := map d | d in Dimensions :: map[A := 0, B := 0];
    forall d: Dimension ensures d in t && t[d] == map[A := 0, B := 0] {
      AllListed(d, A);
    }
    forall d: Dimension, s: Side ensures s in t[d] && t[d][s] == 0 {
      assert s == A || s == B;
    }
    t
  }

  /** The stars of one box: star `i` is lit exactly when `i` is at most the rating. */
  ghost predicate Shows(lit: seq<bool>, rating: int)
  {
    |lit| == StarCount && forall k :: 0 <= k < |lit| ==> (lit[k] <==> k + 1 <= rating)
  }

  function CountLit(lit: seq<bool>): nat
  {
    if lit == [] then 0 else (if lit[0] then 1 else 0) + CountLit(lit[1..])
  }

  /** Lit stars form a prefix of the row, so their number is the rating. */
  lemma {:induction false} LitCountIsRating(lit: seq<bool>, rating: int)
    requires 0 <= rating <= |lit|
    requires forall k :: 0 <= k < |lit| ==> (lit[k] <==> k + 1 <= rating)
    ensures CountLit(lit) == rating
    decreases |lit|
  {
    if lit != [] {
      var rest := lit[1..];
      var r := if rating == 0 then 0 else rating - 1;
      forall k | 0 <= k < |rest| ensures rest[k] <==> k + 1 <= r {
        assert rest[k] == lit[k + 1];
      }
      LitCountIsRating(rest, r);
    }
  }

  /** The innermost loop of `renderStars`: one box of five stars. */
  method StarBox(rating: int) returns (lit: seq<bool>)
    ensures Shows(lit, rating)
  {
    lit := [];
    for i := 1 to StarCount + 1
      invariant |lit| == i - 1
      invariant forall k :: 0 <= k < |lit| ==> (lit[k] <==> k + 1 <= rating)
    {
      lit := lit + [i <= rating];
    }
  }

  /**
   * The page object saved by the Save button. `prompt` is `None` where the
   * script reads `undefined`.
   */
  datatype Payload = Payload(prompt: Option<string>, ratings: Table, note: string, timestamp: string)

  const PlaceholderA := "Model A output placeholder"
  const PlaceholderB := "Model B output placeholder"

  /**
   * The page: the ratings table, updated in place by the star clicks, the
   * prompt and note boxes, the two output areas, and the `value` property
   * the script puts on the `window.prompt` function (`None` while it is
   * undefined).
   */
  class Page {
    var ratings: Table
    var promptBox: string
    var promptFunctionValue: Option<string>
    var note: string
    var outA: string
    var outB: string

    ghost predicate Valid()
      reads this
    {
      WellFormed(ratings)
    }

    /** Page load: every cell of the table is 0 and `window.prompt` has no `value`. */
    constructor (promptBox: string, note: string)
      ensures Valid() && forall d: Dimension :: ratings[d][A] == 0 && ratings[d][B] == 0
      ensures this.promptBox == promptBox && this.note == note && outA == "" && outB == ""
      ensures promptFunctionValue == None
    {
      ratings := InitialTable();
      this.promptBox, this.note := promptBox, note;
      promptFunctionValue := None;
      outA, outB := "", "";
    }

    /**
     * `renderStars`: for every row and every box in it, five stars of
     * which the first `ratings[dim][model]` are lit. Nothing changes.
     */
    method RenderStars() returns (view: map<(Dimension, Side), seq<bool>>)
      requires Valid()
      ensures forall d: Dimension, s: Side :: (d, s) in view && Shows(view[(d, s)], ratings[d][s])
      ensures forall d: Dimension, s: Side :: CountLit(view[(d, s)]) == ratings[d][s]
    {
      view := map[];
      for i := 0 to |Dimensions|
        invariant forall j, s: Side :: 0 <= j < i ==> (Dimensions[j], s) in view && Shows(view[(Dimensions[j], s)], ratings[Dimensions[j]][s])
      {
        var d := Dimensions[i];
        for j := 0 to |Sides|
          invariant forall jj, s: Side :: 0 <= jj < i ==> (Dimensions[jj], s) in view && Shows(view[(Dimensions[jj], s)], ratings[Dimensions[jj]][s])
          invariant forall k :: 0 <= k < j ==> (d, Sides[k]) in view && Shows(view[(d, Sides[k])], ratings[d][Sides[k]])
        {
          var s := Sides[j];
          var lit := StarBox(ratings[d][s]);
          view := view[(d, s) := lit];
        }
        forall s: Side ensures (d, s) in view && Shows(view[(d, s)], ratings[d][s]) {
          if s == A { assert Sides[0] == s; } else { assert Sides[1] == s; }
        }
      }
      forall d: Dimension, s: Side
        ensures (d, s) in view && Shows(view[(d, s)], ratings[d][s]) && CountLit(view[(d, s)]) == ratings[d][s]
      {
        AllListed(d, s);
        var j :| 0 <= j < |Dimensions| && Dimensions[j] == d;
        LitCountIsRating(view[(d, s)], ratings[d][s]);
      }
    }

    /**
     * A click on star `i` of `(dim, model)`: that cell becomes `i`, every
     * other cell keeps its value, and the stars are drawn again.
     */
    method Click(d: Dimension, s: Side, i: int) returns (view: map<(Dimension, Side), seq<bool>>)
      requires Valid() && 1 <= i <= StarCount
      modifies this`ratings
      ensures Valid() && ratings[d][s] == i
      ensures forall e: Dimension, t: Side :: (e, t) != (d, s) ==> ratings[e][t] == old(ratings[e][t])
      ensures forall e: Dimension, t: Side :: (e, t) in view && Shows(view[(e, t)], ratings[e][t])
      ensures forall e: Dimension, t: Side :: CountLit(view[(e, t)]) == ratings[e][t]
    {
      ratings := ratings[d := ratings[d][s := i]];
      view := RenderStars();
    }

    /** The Run button: both output areas get their placeholder text. */
    method Run()
      modifies this`outA, this`outB
      ensures outA == PlaceholderA && outB == PlaceholderB
    {
      outA := PlaceholderA;
      outB := PlaceholderB;
    }

    /**
     * The Clear button as written: `prompt.value = ""` sets the property on
     * `window.prompt`, so the prompt box keeps its text; the note is
     * emptied and the ratings stay.
     */
    method Clear()
      modifies this`promptFunctionValue, this`note
      ensures promptFunctionValue == Some("") && note == ""
      ensures promptBox == old(promptBox)
    {
      promptFunctionValue := Some("");
      note := "";
    }

    /**
     * The Save button as written: the payload's prompt is whatever `value`
     * the `window.prompt` function carries (undefined before the first
     * Clear), never the prompt box. Nothing changes.
     */
    method Save(timestamp: string) returns (p: Payload)
      requires Valid()
      ensures p.prompt == promptFunctionValue && p.note == note && p.timestamp == timestamp
      ensures p.ratings == ratings && WellFormed(p.ratings)
    {
      p := Payload(promptFunctionValue, ratings, note, timestamp);
    }

    /** The Clear button as intended: the prompt box and the note are emptied; the ratings stay. */
    method ClearIntended()
      modifies this`promptBox, this`note
      ensures promptBox == "" && note == ""
      ensures promptFunctionValue == old(promptFunctionValue)
    {
      promptBox := "";
      note := "";
    }

    /** The Save button as intended: the payload carries the prompt box's text. Nothing changes. */
    method SaveIntended(timestamp: string) returns (p: Payload)
      requires Valid()
      ensures p.prompt == Some(promptBox) && p.note == note && p.timestamp == timestamp
      ensures p.ratings == ratings && WellFormed(p.ratings)
    {
      p := Payload(Some(promptBox), ratings, note, timestamp);
    }
  }

  /**
   * The Clear button as written leaves a typed prompt in its box, and Save
   * before any Clear records no prompt at all.
   */
  method ClearAndSaveMissPromptBox() returns (keptAfterClear: string, savedBeforeClear: Option<string>)
    ensures keptAfterClear == "hello"
    ensures savedBeforeClear == None
  {
    var page := new Page("hello", "");
    var p := page.Save("t");
    savedBeforeClear := p.prompt;
    page.Clear();
    keptAfterClear := page.promptBox;
  }

  /**
   * With the intended buttons, Save records the typed prompt and Clear
   * empties the box, after which Save records the empty prompt.
   */
  method IntendedButtonsUsePromptBox() returns (savedBeforeClear: Option<string>, keptAfterClear: string, savedAfterClear: Option<string>)
    ensures savedBeforeClear == Some("hello")
    ensures keptAfterClear == ""
    ensures savedAfterClear == Some("")
  {
    var page := new Page("hello", "");
    var p := page.SaveIntended("t");
    savedBeforeClear := p.prompt;
    page.ClearIntended();
    keptAfterClear := page.promptBox;
    var q := page.SaveIntended("t");
    savedAfterClear := q.prompt;
  }
}
