/**
 * The framework site's helper library: class-name joining, random picks,
 * shuffling, probability-weighted selection, text truncation and the
 * season / time-of-day buckets. Every `Math.random()` is a parameter in
 * [0, 1) and every "now" is a month or hour parameter.
 */
module Utils {
  import opened Wrappers
  import opened Text

  // ---- cn ----

  /** A class-name argument is falsy when it is undefined, null, false or the empty text. */
  predicate Truthy(c: Option<string>) { c.Some? && c.value != "" }

  /** The truthy arguments, in order (`classes.filter(Boolean)`). */
  function KeptClasses(classes: seq<Option<string>>): (kept: seq<string>)
    ensures |kept| <= |classes|
    ensures forall j :: 0 <= j < |kept| ==> kept[j] != "" && Some(kept[j]) in classes
    ensures forall i :: 0 <= i < |classes| && Truthy(classes[i]) ==> classes[i].value in kept
  {
    if |classes| == 0 then []
    else
      var rest := KeptClasses(classes[1..]);
      assert forall i :: 1 <= i < |classes| ==> classes[i] == classes[1..][i - 1];
      if Truthy(classes[0]) then [classes[0].value] + rest else rest
  }

  /** `cn(...classes)`: the truthy arguments joined with single spaces. */
  function Cn(classes: seq<Option<string>>): (s: string)
    ensures s == "" <==> forall i :: 0 <= i < |classes| ==> !Truthy(classes[i])
  {
    var kept := KeptClasses(classes);
    assert |kept| > 0 ==> Some(kept[0]) in classes && |Join(kept, " ")| >= |kept[0]|;
    Join(kept, " ")
  }

  /** Filtering distributes over concatenation, so the kept arguments stay in argument order. */
  lemma {:induction false} KeptClassesAppend(a: seq<Option<string>>, b: seq<Option<string>>)
    ensures KeptClasses(a + b) == KeptClasses(a) + KeptClasses(b)
  {
    if |a| > 0 {
      assert (a + b)[1..] == a[1..] + b;
      KeptClassesAppend(a[1..], b);
    } else {
      assert a + b == b;
    }
  }

  /**
   * When no argument holds a space, splitting the joined text on spaces gives
   * back exactly the truthy arguments in order; with none of them the text is empty.
   */
  lemma CnSplitsBack(classes: seq<Option<string>>)
    requires forall i :: 0 <= i < |classes| && classes[i].Some? ==> ' ' !in classes[i].value
    ensures KeptClasses(classes) == [] ==> Cn(classes) == ""
    ensures KeptClasses(classes) != [] ==> Split(Cn(classes), ' ') == KeptClasses(classes)
  {
    var kept := KeptClasses(classes);
    if kept != [] {
      forall j | 0 <= j < |kept| ensures ' ' !in kept[j] {
        assert Some(kept[j]) in classes;
      }
      SplitJoin(kept, ' ');
    }
  }

  // ---- random picks ----

  /** `Math.floor(u * n)` for a draw `u` in [0, 1). */
  function RandomIndex(n: nat, u: real): (i: int)
    requires 0.0 <= u < 1.0
    ensures n == 0 ==> i == 0
    ensures n > 0 ==> 0 <= i < n
  {
    RandomScaleBound(n, u);
    (u * n as real).Floor
  }

  lemma RandomScaleBound(n: nat, u: real)
    requires 0.0 <= u < 1.0
    ensures 0.0 <= u * n as real
    ensures n > 0 ==> u * n as real < n as real
  {
  }

  /** Every index can be drawn: the draw `i / n` lands on `i`. */
  lemma RandomIndexCovers(n: nat, i: nat)
    requires i < n
    ensures 0.0 <= i as real / n as real < 1.0
    ensures RandomIndex(n, i as real / n as real) == i
  {
    QuotientBelowOne(i, n);
    var u := i as real / n as real;
    assert u * n as real == i as real;
  }

  /** A quotient of a smaller by a larger non-negative number lies in [0, 1). */
  lemma QuotientBelowOne(i: nat, n: nat)
    requires i < n
    ensures 0.0 <= i as real / n as real < 1.0
  {
    var u := i as real / n as real;
    assert u * n as real == i as real;
    if u >= 1.0 {
      assert false;
    }
  }

  /**
   * `getRandomElement(array)`: the element at the drawn index, or nothing
   * (JavaScript's `undefined`) for an empty array.
   */
  function GetRandomElement<T>(s: seq<T>, u: real): (r: Option<T>)
    requires 0.0 <= u < 1.0
    ensures r.None? <==> |s| == 0
    ensures r.Some? ==> r.value in s
  {
    if |s| == 0 then None else Some(s[RandomIndex(|s|, u)])
  }

  /** `getRandomNumber(min, max)`: `min + Math.floor(u * (max - min + 1))`. */
  function GetRandomNumber(min: int, max: int, u: real): (r: int)
    requires min <= max
    requires 0.0 <= u < 1.0
    ensures min <= r <= max
  {
    min + RandomIndex(max - min + 1, u)
  }

  // ---- shuffleArray ----

  /** The position swapped with `i` at step `i` of the shuffle: `Math.floor(u * (i + 1))`. */
  function SwapPartner(i: nat, u: real): (j: nat)
    requires 0.0 <= u < 1.0
    ensures j <= i
  {
    RandomIndex(i + 1, u)
  }

  function Swap<T>(s: seq<T>, i: nat, j: nat): (r: seq<T>)
    requires i < |s| && j < |s|
    ensures |r| == |s|
  {
    s[i := s[j]][j := s[i]]
  }

  lemma SwapMultiset<T>(s: seq<T>, i: nat, j: nat)
    requires i < |s| && j < |s|
    ensures multiset(s[i := s[j]][j := s[i]]) == multiset(s)
  {
    if i != j {
      var t := s[i := s[j]];
      assert multiset(t) == multiset(s) - multiset{s[i]} + multiset{s[j]};
      assert multiset(t[j := s[i]]) == multiset(t) - multiset{t[j]} + multiset{s[i]};
    }
  }

  /**
   * The Fisher-Yates passes still to run on `s`: positions `i` down to 1,
   * each swapped with the partner its draw picks.
   */
  function ShuffleFrom<T>(s: seq<T>, draws: seq<real>, i: nat): (r: seq<T>)
    requires i < |s| && |draws| == |s|
    requires forall k :: 0 <= k < |draws| ==> 0.0 <= draws[k] < 1.0
    ensures |r| == |s|
    decreases i
  {
    if i == 0 then s else ShuffleFrom(Swap(s, i, SwapPartner(i, draws[i])), draws, i - 1)
  }

  /** The shuffle of `s` under `draws` (`draws[i]` is the draw made at step `i`). */
  function Shuffled<T>(s: seq<T>, draws: seq<real>): (r: seq<T>)
    requires |draws| == |s|
    requires forall k :: 0 <= k < |draws| ==> 0.0 <= draws[k] < 1.0
    ensures |r| == |s|
  {
    if |s| == 0 then s else ShuffleFrom(s, draws, |s| - 1)
  }

  /** Every pass is a swap, so the passes keep the multiset of elements. */
  lemma {:induction false} ShuffleFromPermutes<T>(s: seq<T>, draws: seq<real>, i: nat)
    requires i < |s| && |draws| == |s|
    requires forall k :: 0 <= k < |draws| ==> 0.0 <= draws[k] < 1.0
    ensures multiset(ShuffleFrom(s, draws, i)) == multiset(s)
    decreases i
  {
    if i > 0 {
      var j := SwapPartner(i, draws[i]);
      SwapMultiset(s, i, j);
      ShuffleFromPermutes(Swap(s, i, j), draws, i - 1);
    }
  }

  /** The shuffle is a permutation: same length, same multiset of elements. */
  lemma ShuffledPermutes<T>(s: seq<T>, draws: seq<real>)
    requires |draws| == |s|
    requires forall k :: 0 <= k < |draws| ==> 0.0 <= draws[k] < 1.0
    ensures |Shuffled(s, draws)| == |s|
    ensures multiset(Shuffled(s, draws)) == multiset(s)
  {
    if |s| > 0 {
      ShuffleFromPermutes(s, draws, |s| - 1);
    }
  }

  /**
   * `shuffleArray(array)`: copies the array and runs Fisher-Yates on the copy,
   * from the last position down to position 1. The input is not written.
   */
  method ShuffleArray<T>(input: array<T>, draws: seq<real>) returns (shuffled: array<T>)
    requires |draws| == input.Length
    requires forall k :: 0 <= k < |draws| ==> 0.0 <= draws[k] < 1.0
    ensures fresh(shuffled)
    ensures shuffled[..] == Shuffled(input[..], draws)
    ensures multiset(shuffled[..]) == multiset(input[..])
    ensures input[..] == old(input[..])
  {
    var copy := input[..];
    shuffled := ArrayOf(copy);
    if shuffled.Length > 0 {
      ghost var target := ShuffleFrom(copy, draws, |copy| - 1);
      var i := shuffled.Length - 1;
      while i > 0
        invariant 0 <= i < shuffled.Length
        invariant ShuffleFrom(shuffled[..], draws, i) == target
      {
        ghost var before := shuffled[..];
        var j := SwapPartner(i, draws[i]);
        SwapInPlace(shuffled, i, j);
        assert ShuffleFrom(before, draws, i) == ShuffleFrom(shuffled[..], draws, i - 1);
        i := i - 1;
      }
    }
    ShuffledPermutes(copy, draws);
  }

  /** `[...array]`: a fresh array holding the elements of `s`. */
  method ArrayOf<T>(s: seq<T>) returns (a: array<T>)
    ensures fresh(a) && a[..] == s
  {
    a := new T[|s|](k requires 0 <= k < |s| => s[k]);
  }

  /** `[a[i], a[j]] = [a[j], a[i]]`. */
  method SwapInPlace<T>(a: array<T>, i: nat, j: nat)
    requires i < a.Length && j < a.Length
    modifies a
    ensures a[..] == Swap(old(a[..]), i, j)
  {
    a[i], a[j] := a[j], a[i];
  }

  // ---- selectByProbability ----

  /** An entry with a `probability` field. */
  datatype Weighted<T> = Weighted(item: T, probability: real)

  /** Running sum of the probabilities of the first `k` entries. */
  function Cumulative<T>(entries: seq<Weighted<T>>, k: nat): real
    requires k <= |entries|
  {
    if k == 0 then 0.0 else Cumulative(entries, k - 1) + entries[k - 1].probability
  }

  /**
   * The first position at or after `from` whose running sum reaches `random`;
   * `|entries|` when none does.
   */
  function FirstReachingFrom<T>(entries: seq<Weighted<T>>, random: real, from: nat): (k: nat)
    requires from <= |entries|
    ensures from <= k <= |entries|
    ensures forall j :: from < j <= k ==> Cumulative(entries, j) < random
    ensures k < |entries| ==> random <= Cumulative(entries, k + 1)
    decreases |entries| - from
  {
    if from == |entries| then from
    else if random <= Cumulative(entries, from + 1) then from
    else FirstReachingFrom(entries, random, from + 1)
  }

  /** The first position whose running sum reaches `random`; `|entries|` when none does. */
  function FirstReaching<T>(entries: seq<Weighted<T>>, random: real): (k: nat)
    ensures k <= |entries|
    ensures forall j :: 0 < j <= k ==> Cumulative(entries, j) < random
    ensures k < |entries| ==> random <= Cumulative(entries, k + 1)
  {
    FirstReachingFrom(entries, random, 0)
  }

  /**
   * `selectByProbability(items)`: the first entry whose running sum reaches
   * the draw, falling back to the last entry; nothing for an empty list.
   */
  method SelectByProbability<T>(entries: seq<Weighted<T>>, random: real) returns (r: Option<Weighted<T>>)
    requires 0.0 <= random < 1.0
    ensures |entries| == 0 ==> r == None
    ensures FirstReaching(entries, random) < |entries| ==> r == Some(entries[FirstReaching(entries, random)])
    ensures |entries| > 0 && FirstReaching(entries, random) == |entries| ==> r == Some(entries[|entries| - 1])
    ensures r.Some? <==> |entries| > 0
    ensures r.Some? ==> r.value in entries
  {
    var cumulative := 0.0;
    for i := 0 to |entries|
      invariant cumulative == Cumulative(entries, i)
      invariant forall j :: 0 < j <= i ==> Cumulative(entries, j) < random
    {
      cumulative := cumulative + entries[i].probability;
      assert cumulative == Cumulative(entries, i + 1);
      if random <= cumulative {
        return Some(entries[i]);
      }
    }
    if |entries| == 0 {
      return None;
    }
    return Some(entries[|entries| - 1]);
  }

  /** The quarter table [0.1, 0.2, 0.3, 0.4]: a draw of 0.05 picks the first entry, 0.95 the fourth. */
  lemma QuarterTableExample()
    ensures FirstReaching([Weighted(1, 0.1), Weighted(2, 0.2), Weighted(3, 0.3), Weighted(4, 0.4)], 0.05) == 0
    ensures FirstReaching([Weighted(1, 0.1), Weighted(2, 0.2), Weighted(3, 0.3), Weighted(4, 0.4)], 0.95) == 3
  {
    var e := [Weighted(1, 0.1), Weighted(2, 0.2), Weighted(3, 0.3), Weighted(4, 0.4)];
    assert Cumulative(e, 1) == 0.1;
    assert Cumulative(e, 2) == 0.3;
    assert Cumulative(e, 3) == 0.6;
    assert Cumulative(e, 4) == 1.0;
  }

  // ---- truncateText ----

  /** The end index `text.slice(0, end)` uses: negative ends count from the back. */
  function SliceEnd(length: nat, end: int): (e: nat)
    ensures e <= length
    ensures end >= 0 ==> e == if end < length then end else length
    ensures end < 0 ==> e == if length + end > 0 then length + end else 0
  {
    if end < 0 then (if length + end > 0 then length + end else 0)
    else if end < length then end else length
  }

  /**
   * `truncateText(text, maxLength)`: the text itself when it fits, otherwise
   * a prefix of it followed by "...".
   */
  function TruncateText(text: string, maxLength: int): (r: string)
    ensures |text| <= maxLength ==> r == text
    ensures |text| > maxLength ==> |r| >= 3 && r[|r| - 3..] == "..." && r[..|r| - 3] <= text
    ensures |text| > maxLength >= 0 ==> |r| == maxLength + 3
    ensures |text| > maxLength && maxLength < 0 ==> |r| == 3 + if |text| + maxLength > 0 then |text| + maxLength else 0
  {
    if |text| <= maxLength then text
    else text[..SliceEnd(|text|, maxLength)] + "..."
  }

  /** Truncation never lengthens a text by more than the three dots. */
  lemma TruncateBound(text: string, maxLength: int)
    ensures |TruncateText(text, maxLength)| <= |text| + 3
    ensures maxLength >= 0 ==> |TruncateText(text, maxLength)| <= maxLength + 3
  {
  }

  // ---- seasons and times of day ----

  datatype Season = Spring | Summer | Autumn | Winter
  {
    function Label(): string
    {
      match this
      case Spring => "春"
      case Summer => "夏"
      case Autumn => "秋"
      case Winter => "冬"
    }
  }

  /** `getCurrentSeason()` for the month (1-12) of today. */
  function GetCurrentSeason(month: int): (s: Season)
    ensures s == Spring <==> 3 <= month <= 5
    ensures s == Summer <==> 6 <= month <= 8
    ensures s == Autumn <==> 9 <= month <= 11
    ensures s == Winter <==> month < 3 || month > 11
  {
    if 3 <= month <= 5 then Spring
    else if 6 <= month <= 8 then Summer
    else if 9 <= month <= 11 then Autumn
    else Winter
  }

  function MonthsOf(s: Season): set<int>
  {
    set m | 1 <= m <= 12 && GetCurrentSeason(m) == s
  }

  /** Each season owns three of the twelve months; winter is December, January and February. */
  lemma SeasonsSplitTheYear()
    ensures MonthsOf(Spring) == {3, 4, 5} && MonthsOf(Summer) == {6, 7, 8}
    ensures MonthsOf(Autumn) == {9, 10, 11} && MonthsOf(Winter) == {1, 2, 12}
    ensures forall s: Season :: |MonthsOf(s)| == 3
  {
    assert MonthsOf(Spring) == {3, 4, 5};
    assert MonthsOf(Summer) == {6, 7, 8};
    assert MonthsOf(Autumn) == {9, 10, 11};
    assert MonthsOf(Winter) == {1, 2, 12};
  }

  datatype TimeOfDay = Morning | Daytime | Evening | Night
  {
    function Label(): string
    {
      match this
      case Morning => "朝"
      case Daytime => "昼"
      case Evening => "夕"
      case Night => "夜"
    }
  }

  /** `getCurrentTimeOfDay()` for the hour (0-23) of now. */
  function GetCurrentTimeOfDay(hour: int): (t: TimeOfDay)
    ensures t == Morning <==> 5 <= hour < 12
    ensures t == Daytime <==> 12 <= hour < 17
    ensures t == Evening <==> 17 <= hour < 21
    ensures t == Night <==> hour < 5 || hour >= 21
  {
    if 5 <= hour < 12 then Morning
    else if 12 <= hour < 17 then Daytime
    else if 17 <= hour < 21 then Evening
    else Night
  }

  function HoursOf(t: TimeOfDay): set<int>
  {
    set h | 0 <= h < 24 && GetCurrentTimeOfDay(h) == t
  }

  /** Of the 24 hours, 7 are morning, 5 daytime, 4 evening and 8 night. */
  lemma TimesSplitTheDay()
    ensures |HoursOf(Morning)| == 7 && |HoursOf(Daytime)| == 5
    ensures |HoursOf(Evening)| == 4 && |HoursOf(Night)| == 8
  {
    HoursOfMorning();
    HoursOfDaytime();
    HoursOfEvening();
    HoursOfNight();
  }

  lemma HoursOfMorning()
    ensures HoursOf(Morning) == {5, 6, 7, 8, 9, 10, 11}
    ensures |HoursOf(Morning)| == 7
  {
    assert HoursOf(Morning) == {5, 6, 7, 8, 9, 10, 11};
  }

  lemma HoursOfDaytime()
    ensures HoursOf(Daytime) == {12, 13, 14, 15, 16}
    ensures |HoursOf(Daytime)| == 5
  {
    assert HoursOf(Daytime) == {12, 13, 14, 15, 16};
  }

  lemma HoursOfEvening()
    ensures HoursOf(Evening) == {17, 18, 19, 20}
    ensures |HoursOf(Evening)| == 4
  {
    assert HoursOf(Evening) == {17, 18, 19, 20};
  }

  lemma HoursOfNight()
    ensures HoursOf(Night) == {0, 1, 2, 3, 4, 21, 22, 23}
    ensures |HoursOf(Night)| == 8
  {
    assert HoursOf(Night) == {0, 1, 2, 3, 4, 21, 22, 23};
  }
}
