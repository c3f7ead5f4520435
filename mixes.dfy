/**
 * Finding the Daily Discovery mix on the mixes page, and the name of the
 * playlist it is copied into. The search exists in two forms in the source:
 * a nested loop with `break` (FindDaily) and a `next(...)` over a generator
 * (NextDaily); both are proved to return the first match in category order,
 * then item order.
 */
module Mixes {
  import opened Wrappers
  import opened Tidal
  import opened Dates

  predicate IsUpper(c: char) {
    'A' <= c <= 'Z'
  }

  function LowerChar(c: char): char {
    if IsUpper(c) then (c as int + 32) as char else c
  }

  /** `str.lower()` on ASCII text. */
  function Lower(s: string): (r: string)
    ensures |r| == |s|
    ensures forall i :: 0 <= i < |r| ==> !IsUpper(r[i])
    ensures forall i :: 0 <= i < |r| ==> r[i] == s[i] || (IsUpper(s[i]) && r[i] as int == s[i] as int + 32)
  {
    seq(|s|, i requires 0 <= i < |s| => LowerChar(s[i]))
  }

  predicate OccursAt(s: string, sub: string, k: int) {
    0 <= k <= |s| - |sub| && s[k..k + |sub|] == sub
  }

  /** Python's `sub in s` on strings. */
  predicate Contains(s: string, sub: string) {
    exists k | 0 <= k <= |s| - |sub| :: OccursAt(s, sub, k)
  }

  /** `getattr(item, "title", "")`. */
  function TitleOf(item: MixItem): string {
    item.title.GetOr("")
  }

  /** `"daily" in getattr(item, "title", "").lower()`. */
  predicate IsDaily(item: MixItem)
    ensures item.title.None? ==> !IsDaily(item)
  {
    Contains(Lower(TitleOf(item)), "daily")
  }

  // ---------------------------------------------------------------------------
  // The specification both searches meet

  /** A category without `items`, or whose items are all not daily. */
  ghost predicate NoDailyIn(cat: Category) {
    cat.items.None? || forall i :: 0 <= i < |cat.items.value| ==> !IsDaily(cat.items.value[i])
  }

  ghost predicate NoDaily(cats: seq<Category>) {
    forall c :: 0 <= c < |cats| ==> NoDailyIn(cats[c])
  }

  /** Item `i` of category `c` is daily, and no item before it (category order, then item order) is. */
  ghost predicate FirstDailyAt(cats: seq<Category>, c: int, i: int) {
    && 0 <= c < |cats|
    && cats[c].items.Some?
    && 0 <= i < |cats[c].items.value|
    && IsDaily(cats[c].items.value[i])
    && (forall c' :: 0 <= c' < c ==> NoDailyIn(cats[c']))
    && (forall i' :: 0 <= i' < i ==> !IsDaily(cats[c].items.value[i']))
  }

  // ---------------------------------------------------------------------------
  // The generator form: `next((item for cat in cats if hasattr(cat, "items")
  //                             for item in cat.items if <daily>), None)`

  /** The items the generator yields from one list of items, in order. */
  function DailyIn(items: seq<MixItem>): seq<MixItem> {
    if items == [] then []
    else (if IsDaily(items[0]) then [items[0]] else []) + DailyIn(items[1..])
  }

  /** Everything the generator would yield, in order. */
  function Yielded(cats: seq<Category>): seq<MixItem> {
    if cats == [] then []
    else
      (match cats[0].items
       case Some(items) => DailyIn(items)
       case None => []) + Yielded(cats[1..])
  }

  /** `next(generator, None)`: the first item yielded, if any. */
  function NextDaily(cats: seq<Category>): Option<MixItem> {
    var ys := Yielded(cats);
    if ys == [] then None else Some(ys[0])
  }

  lemma {:induction false} DailyInEmpty(items: seq<MixItem>)
    ensures DailyIn(items) == [] <==> forall i :: 0 <= i < |items| ==> !IsDaily(items[i])
  {
    if items != [] {
      DailyInEmpty(items[1..]);
      forall i | 1 <= i < |items| ensures items[i] == items[1..][i - 1] { }
      if DailyIn(items) == [] {
        forall i | 0 <= i < |items| ensures !IsDaily(items[i]) {
          if i > 0 { assert items[i] == items[1..][i - 1]; }
        }
      }
    }
  }

  lemma {:induction false} DailyInFirst(items: seq<MixItem>, i: int)
    requires 0 <= i < |items| && IsDaily(items[i])
    requires forall i' :: 0 <= i' < i ==> !IsDaily(items[i'])
    ensures DailyIn(items) != [] && DailyIn(items)[0] == items[i]
  {
    if i > 0 {
      assert items[1..][i - 1] == items[i];
      forall i' | 0 <= i' < i - 1 ensures !IsDaily(items[1..][i']) {
        assert items[1..][i'] == items[i' + 1];
      }
      DailyInFirst(items[1..], i - 1);
    }
  }

  /** The items one category contributes to the generator. */
  function DailyOf(cat: Category): seq<MixItem> {
    match cat.items
    case Some(items) => DailyIn(items)
    case None => []
  }

  lemma DailyOfEmpty(cat: Category)
    ensures DailyOf(cat) == [] <==> NoDailyIn(cat)
  {
    if cat.items.Some? {
      DailyInEmpty(cat.items.value);
    }
  }

  /**
   * The generator search returns nothing exactly when no item is daily, and
   * otherwise the first daily item in category order, then item order.
   */
  lemma {:induction false} NextDailyIsFirst(cats: seq<Category>)
    ensures NextDaily(cats).None? <==> NoDaily(cats)
    ensures forall c, i :: FirstDailyAt(cats, c, i) ==> NextDaily(cats) == Some(cats[c].items.value[i])
  {
    if cats != [] {
      var tail := cats[1..];
      NextDailyIsFirst(tail);
      DailyOfEmpty(cats[0]);
      assert Yielded(cats) == DailyOf(cats[0]) + Yielded(tail);
      assert NoDaily(cats) <==> NoDailyIn(cats[0]) && NoDaily(tail) by {
        if NoDailyIn(cats[0]) && NoDaily(tail) {
          forall c | 0 <= c < |cats| ensures NoDailyIn(cats[c]) {
            if c > 0 { assert cats[c] == tail[c - 1]; }
          }
        }
        if NoDaily(cats) {
          forall c | 0 <= c < |tail| ensures NoDailyIn(tail[c]) {
            assert tail[c] == cats[c + 1];
          }
        }
      }
      forall c, i | FirstDailyAt(cats, c, i) ensures NextDaily(cats) == Some(cats[c].items.value[i]) {
        if c == 0 {
          DailyInFirst(cats[0].items.value, i);
        } else {
          assert NoDailyIn(cats[0]);
          assert tail[c - 1] == cats[c];
          forall c' | 0 <= c' < c - 1 ensures NoDailyIn(tail[c']) {
            assert tail[c'] == cats[c' + 1];
          }
          assert FirstDailyAt(tail, c - 1, i);
        }
      }
    }
  }

  // ---------------------------------------------------------------------------
  // The loop form

  /**
   * The nested `for` loops with `break`: scan categories in order, skip those
   * without `items`, take the first daily item.
   */
  method FindDaily(cats: seq<Category>) returns (found: Option<MixItem>)
    ensures found.None? <==> NoDaily(cats)
    ensures found.Some? ==> exists c, i :: FirstDailyAt(cats, c, i) && found.value == cats[c].items.value[i]
    ensures found == NextDaily(cats)
  {
    found := None;
    var c := 0;
    ghost var at := (0, 0);
    while c < |cats|
      invariant 0 <= c <= |cats|
      invariant found.None?
      invariant forall c' :: 0 <= c' < c ==> NoDailyIn(cats[c'])
    {
      match cats[c].items {
        case Some(items) =>
          var i := 0;
          while i < |items|
            invariant 0 <= i <= |items|
            invariant found.None?
            invariant forall i' :: 0 <= i' < i ==> !IsDaily(items[i'])
          {
            if IsDaily(items[i]) {
              found := Some(items[i]);
              at := (c, i);
              assert FirstDailyAt(cats, c, i);
              break;
            }
            i := i + 1;
          }
        case None =>
      }
      if found.Some? {
        break;
      }
      c := c + 1;
    }
    NextDailyIsFirst(cats);
    if found.Some? {
      assert FirstDailyAt(cats, at.0, at.1);
    } else {
      assert NoDaily(cats);
    }
  }

  // ---------------------------------------------------------------------------
  // The playlist the mix is copied into

  const DAILY_SUFFIX := " Daily Discovery"

  /** `f"{date.today().isoformat()} Daily Discovery"`. */
  function DailyPlaylistName(today: Date): (name: string)
    requires Valid(today)
    ensures |name| == 26 && name[4] == '-' && name[7] == '-'
    ensures ParseFullDate(name[..10]) == Some(today)
    ensures name[10..] == DAILY_SUFFIX
  {
    ParseOfIsoFormat(today);
    var name := IsoFormat(today) + DAILY_SUFFIX;
    assert name[..10] == IsoFormat(today);
    name
  }
}
