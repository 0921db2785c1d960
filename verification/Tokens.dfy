/** Token estimates and the cuts that keep a text within a token budget. */
module Tokens {

  /** The Han, kana and Hangul ranges that count as one token per character. */
  predicate IsCjk(ch: char) {
    var code := ch as int;
    || 0x3400 <= code <= 0x4DBF
    || 0x4E00 <= code <= 0x9FFF
    || 0xF900 <= code <= 0xFAFF
    || 0x3040 <= code <= 0x30FF
    || 0xAC00 <= code <= 0xD7AF
  }

  /** The CJK characters among the first n. */
  function CjkTo(text: string, n: nat): (count: nat)
    requires n <= |text|
    ensures count <= n
  {
    if n == 0 then 0 else CjkTo(text, n - 1) + if IsCjk(text[n - 1]) then 1 else 0
  }

  /** Four latin characters or one CJK character per token, plus one; nothing for an empty text. */
  function EstimateTo(text: string, n: nat): nat
    requires n <= |text|
  {
    if n == 0 then 0 else (n - CjkTo(text, n)) / 4 + CjkTo(text, n) + 1
  }

  function Estimate(text: string): nat {
    EstimateTo(text, |text|)
  }

  /** The counting loop behind every estimate. */
  method EstimateTextTokens(text: string) returns (tokens: nat)
    ensures tokens == Estimate(text)
  {
    if text == "" {
      return 0;
    }
    var cjk := 0;
    for i := 0 to |text|
      invariant cjk == CjkTo(text, i)
    {
      if IsCjk(text[i]) {
        cjk := cjk + 1;
      }
    }
    tokens := (|text| - cjk) / 4 + cjk + 1;
  }

  lemma {:induction false} CjkOfPrefix(a: string, b: string, n: nat)
    requires n <= |a|
    ensures CjkTo(a + b, n) == CjkTo(a, n)
  {
    if n > 0 {
      CjkOfPrefix(a, b, n - 1);
    }
  }

  /** Estimating a prefix is estimating up to its end. */
  lemma EstimateOfPrefix(text: string, n: nat)
    requires n <= |text|
    ensures Estimate(text[..n]) == EstimateTo(text, n)
  {
    CjkOfPrefix(text[..n], text[n..], n);
    assert text[..n] + text[n..] == text;
  }

  lemma {:induction false} EstimateMonotone(text: string, i: nat, j: nat)
    requires i <= j <= |text|
    ensures EstimateTo(text, i) <= EstimateTo(text, j)
    decreases j
  {
    if i < j {
      EstimateMonotone(text, i, j - 1);
    }
  }

  /** Reference cut: give up one character at a time until the rest fits. */
  function Shrink(text: string, cap: int): string {
    if cap <= 0 || text == "" then ""
    else if Estimate(text) <= cap then text
    else Shrink(text[..|text| - 1], cap)
  }

  /** The reference cut is the longest prefix that fits a positive budget. */
  lemma {:induction false} ShrinkIsLongestFit(text: string, cap: int)
    requires cap > 0
    ensures Shrink(text, cap) <= text
    ensures Estimate(Shrink(text, cap)) <= cap
    ensures forall k | |Shrink(text, cap)| < k <= |text| :: EstimateTo(text, k) > cap
  {
    if text != "" && Estimate(text) > cap {
      var n := |text| - 1;
      var shorter := text[..n];
      ShrinkIsLongestFit(shorter, cap);
      assert shorter + text[n..] == text;
      forall k | |Shrink(text, cap)| < k <= |text|
        ensures EstimateTo(text, k) > cap
      {
        if k <= n {
          CjkOfPrefix(shorter, text[n..], k);
          assert EstimateTo(text, k) == EstimateTo(shorter, k);
        }
      }
    }
  }

  /** Only the reference cut is both a fitting prefix and impossible to extend by one character. */
  lemma ShrinkUnique(text: string, cap: int, low: nat)
    requires cap > 0 && low <= |text|
    requires EstimateTo(text, low) <= cap
    requires low == |text| || EstimateTo(text, low + 1) > cap
    ensures text[..low] == Shrink(text, cap)
  {
    ShrinkIsLongestFit(text, cap);
    var n := |Shrink(text, cap)|;
    assert text[..n] == Shrink(text, cap);
    EstimateOfPrefix(text, n);
    if n > low {
      EstimateMonotone(text, low + 1, n);
    }
  }

  /** The binary search computes the reference cut. */
  method ShrinkText(text: string, cap: int) returns (prefix: string)
    ensures prefix == Shrink(text, cap)
  {
    if cap <= 0 {
      return "";
    }
    var tokens := EstimateTextTokens(text);
    if tokens <= cap {
      return text;
    }
    var low, high := 0, |text|;
    while low < high
      invariant 0 <= low <= high <= |text|
      invariant EstimateTo(text, low) <= cap
      invariant high < |text| ==> EstimateTo(text, high + 1) > cap
    {
      var mid := (low + high + 1) / 2;
      tokens := EstimateTextTokens(text[..mid]);
      EstimateOfPrefix(text, mid);
      if tokens <= cap {
        low := mid;
      } else {
        high := mid - 1;
      }
    }
    ShrinkUnique(text, cap, low);
    prefix := text[..low];
  }

  function Total(parts: seq<string>): nat {
    if parts == [] then 0 else Estimate(parts[0]) + Total(parts[1..])
  }

  const CUT_MARK := "\n..."

  /** A cut text with its mark costs at most one token more than the budget it was cut to. */
  lemma CutMarkCostsOneToken(kept: string, cap: nat)
    requires Estimate(kept) <= cap && 1 <= cap
    ensures Estimate(kept + CUT_MARK) <= cap + 1
  {
    var s := kept + CUT_MARK;
    var n := |kept|;
    CjkOfPrefix(kept, CUT_MARK, n);
    assert s[n] == '\n' && s[n + 1] == '.' && s[n + 2] == '.' && s[n + 3] == '.';
    assert CjkTo(s, n + 1) == CjkTo(s, n);
    assert CjkTo(s, n + 2) == CjkTo(s, n);
    assert CjkTo(s, n + 3) == CjkTo(s, n);
    assert CjkTo(s, n + 4) == CjkTo(s, n);
  }

  /** The budget of a summarizing request: 30% of the window, never below 1024 tokens. */
  function SummaryCap(window: nat): nat {
    if window * 30 / 100 > 1024 then window * 30 / 100 else 1024
  }

  /** `kept` is the longest newest run of `parts` that fits. */
  ghost predicate NewestFit(parts: seq<string>, kept: seq<string>, cap: nat) {
    && |kept| <= |parts|
    && kept == parts[|parts| - |kept|..]
    && Total(kept) <= cap
    && forall i | 0 <= i < |parts| - |kept| :: Total(parts[i..]) > cap
  }

  /** Keeps the longest newest run of parts within the budget, or the newest part alone, cut. */
  method LimitSummaryInput(parts: seq<string>, window: nat) returns (kept: seq<string>)
    ensures parts != [] && Estimate(parts[|parts| - 1]) > SummaryCap(window) ==>
      && kept == [Shrink(parts[|parts| - 1], SummaryCap(window)) + CUT_MARK]
      && Estimate(kept[0]) <= SummaryCap(window) + 1
    ensures parts == [] || Estimate(parts[|parts| - 1]) <= SummaryCap(window) ==>
      && NewestFit(parts, kept, SummaryCap(window))
      && (parts != [] ==> kept != [])
  {
    var cap := SummaryCap(window);
    kept := [];
    var total := 0;
    var i := |parts|;
    ghost var fits := parts == [] || Estimate(parts[|parts| - 1]) <= cap;
    ghost var overflow := false;
    while i > 0
      invariant 0 <= i <= |parts|
      invariant kept == parts[i..]
      invariant total == Total(kept)
      invariant fits ==> total <= cap
      invariant !fits && kept != [] ==> total > cap && i == |parts| - 1
      invariant !overflow
    {
      var tokens := EstimateTextTokens(parts[i - 1]);
      assert parts[i - 1..] == [parts[i - 1]] + kept;
      if kept != [] && total + tokens > cap {
        overflow := true;
        break;
      }
      kept := [parts[i - 1]] + kept;
      total := total + tokens;
      i := i - 1;
    }
    if overflow {
      assert Total(parts[i - 1..]) > cap;
      forall k | 0 <= k < i
        ensures Total(parts[k..]) > cap
      {
        TotalGrows(parts, k, i - 1);
      }
    }
    if !fits {
      assert kept == [parts[|parts| - 1]];
    }
    if kept != [] && Estimate(kept[|kept| - 1]) > cap {
      var cut := ShrinkText(kept[|kept| - 1], cap);
      ShrinkIsLongestFit(kept[|kept| - 1], cap);
      CutMarkCostsOneToken(cut, cap);
      kept := kept[|kept| - 1 := cut + CUT_MARK];
    }
  }

  lemma {:induction false} TotalGrows(parts: seq<string>, i: nat, j: nat)
    requires i <= j <= |parts|
    ensures Total(parts[j..]) <= Total(parts[i..])
    decreases j - i
  {
    if i < j {
      TotalGrows(parts, i + 1, j);
      assert parts[i..][1..] == parts[i + 1..];
    }
  }
}
