/** Cutting a document's page texts into bounded model-input windows. */
module PageWindows {
  import opened Wrappers

  const MAX_WINDOWS: nat := 50
  const MAX_WINDOW_CHARS: nat := 12000
  const MAX_PAGES: nat := 100

  datatype PageWindow = PageWindow(pageStart: int, pageEnd: int, text: string)

  datatype CardError = BadPagesPerWindow | BadPageCount | MalformedWindow | BadWindowText | OverBudget

  // ------------------------------------------------------------------ str.strip and "\n".join

  /** The characters Python's str.strip removes. */
  predicate Space(c: char) {
    var n := c as int;
    || 9 <= n <= 13 || 28 <= n <= 32 || n == 133 || n == 160 || n == 5760 || 8192 <= n <= 8202
    || n == 8232 || n == 8233 || n == 8239 || n == 8287 || n == 12288
  }

  function StripLeft(s: string): string {
    if s != "" && Space(s[0]) then StripLeft(s[1..]) else s
  }

  function StripRight(s: string): string {
    if s != "" && Space(s[|s| - 1]) then StripRight(s[..|s| - 1]) else s
  }

  function Strip(s: string): string {
    StripRight(StripLeft(s))
  }

  predicate Blank(s: string) {
    forall i :: 0 <= i < |s| ==> Space(s[i])
  }

  function Join(pages: seq<string>): string {
    if pages == [] then "" else if |pages| == 1 then pages[0] else pages[0] + "\n" + Join(pages[1..])
  }

  lemma {:induction false} StripLeftKeeps(s: string)
    ensures Blank(s) <==> StripLeft(s) == ""
    ensures StripLeft(s) != "" ==> !Space(StripLeft(s)[0])
    decreases |s|
  {
    if s != "" && Space(s[0]) {
      StripLeftKeeps(s[1..]);
      assert forall i :: 0 < i < |s| ==> s[i] == s[1..][i - 1];
    }
  }

  lemma {:induction false} StripRightKeeps(s: string)
    requires s != "" && !Space(s[0])
    ensures StripRight(s) != "" && StripRight(s)[0] == s[0] && |StripRight(s)| <= |s|
    decreases |s|
  {
    if Space(s[|s| - 1]) {
      StripRightKeeps(s[..|s| - 1]);
    }
  }

  /** strip() leaves nothing exactly of a blank text; otherwise it starts with a visible character. */
  lemma StripKeeps(s: string)
    ensures Strip(s) == "" <==> Blank(s)
    ensures Strip(s) != "" ==> !Space(Strip(s)[0])
  {
    StripLeftKeeps(s);
    if StripLeft(s) != "" { StripRightKeeps(StripLeft(s)); }
  }

  lemma {:induction false} JoinBlank(pages: seq<string>)
    ensures Blank(Join(pages)) <==> forall p :: 0 <= p < |pages| ==> Blank(pages[p])
    decreases |pages|
  {
    if |pages| > 1 {
      JoinBlank(pages[1..]);
      var rest := Join(pages[1..]);
      var all := pages[0] + "\n" + rest;
      assert Blank(all) <==> Blank(pages[0]) && Blank(rest) by {
        if Blank(all) {
          assert forall i :: 0 <= i < |pages[0]| ==> pages[0][i] == all[i];
          assert forall i :: 0 <= i < |rest| ==> rest[i] == all[|pages[0]| + 1 + i];
        }
      }
      assert forall p :: 0 < p < |pages| ==> pages[p] == pages[1..][p - 1];
    }
  }

  // ------------------------------------------------------------------ the plan

  /** The constructor's checks. */
  function NewWindow(pageStart: int, pageEnd: int, text: string): Result<PageWindow, CardError> {
    if !(1 <= pageStart <= pageEnd <= MAX_PAGES) then Failure(MalformedWindow)
    else if Strip(text) == "" || |text| > MAX_WINDOW_CHARS then Failure(BadWindowText)
    else Success(PageWindow(pageStart, pageEnd, text))
  }

  function Cut(text: string): string {
    text[..Min(|text|, MAX_WINDOW_CHARS)]
  }

  /** The text of the pages that start at index `start`. */
  function GroupText(pages: seq<string>, perWindow: int, start: nat): string
    requires 1 <= perWindow && start < |pages|
  {
    Strip(Join(pages[start..Min(start + perWindow, |pages|)]))
  }

  /** The windows of the pages from index `start` on. */
  function Windows(pages: seq<string>, perWindow: int, start: nat): seq<PageWindow>
    requires 1 <= perWindow
    decreases |pages| - start
  {
    if start >= |pages| then []
    else
      var text := GroupText(pages, perWindow, start);
      (if text == "" then [] else [PageWindow(start + 1, Min(start + perWindow, |pages|), Cut(text))])
      + Windows(pages, perWindow, start + perWindow)
  }

  /** A planned window always passes the constructor: it starts with a visible character and is
      cut to the limit. */
  lemma NeverRejected(pages: seq<string>, perWindow: int, start: nat)
    requires 1 <= perWindow && start < |pages| <= MAX_PAGES && GroupText(pages, perWindow, start) != ""
    ensures var end := Min(start + perWindow, |pages|); var text := Cut(GroupText(pages, perWindow, start));
            NewWindow(start + 1, end, text) == Success(PageWindow(start + 1, end, text))
  {
    var whole := GroupText(pages, perWindow, start);
    StripKeeps(Join(pages[start..Min(start + perWindow, |pages|)]));
    StripKeeps(Cut(whole));
    assert Cut(whole)[0] == whole[0];
  }

  /** The index of the first page of group g. */
  function GroupStart(g: nat, perWindow: nat): (start: nat)
    ensures 1 <= perWindow ==> g <= start
  {
    if g == 0 then 0 else GroupStart(g - 1, perWindow) + perWindow
  }

  /** The page groups with some extractable page. */
  function Extractable(pages: seq<string>, perWindow: int): set<nat>
    requires 1 <= perWindow
  {
    set g: nat | g < |pages| && GroupHolds(pages, perWindow, g)
  }

  predicate GroupHolds(pages: seq<string>, perWindow: nat, g: nat) {
    && GroupStart(g, perWindow) < |pages|
    && HasText(pages, GroupStart(g, perWindow), Min(GroupStart(g, perWindow) + perWindow, |pages|))
  }

  predicate HasText(pages: seq<string>, from: int, to: int)
    requires 0 <= from && to <= |pages|
  {
    exists p :: from <= p < to && !Blank(pages[p])
  }

  lemma GroupHasText(pages: seq<string>, perWindow: int, start: nat)
    requires 1 <= perWindow && start < |pages|
    ensures GroupText(pages, perWindow, start) != "" <==> HasText(pages, start, Min(start + perWindow, |pages|))
  {
    var end := Min(start + perWindow, |pages|);
    var group := pages[start..end];
    StripKeeps(Join(group));
    JoinBlank(group);
    assert forall p :: start <= p < end ==> pages[p] == group[p - start];
    assert forall p :: 0 <= p < |group| ==> group[p] == pages[start + p];
  }

  lemma Unfold(pages: seq<string>, perWindow: int, start: nat)
    requires 1 <= perWindow && start < |pages|
    ensures var rest := Windows(pages, perWindow, start + perWindow); var text := GroupText(pages, perWindow, start);
            Windows(pages, perWindow, start) ==
              if text == "" then rest else [PageWindow(start + 1, Min(start + perWindow, |pages|), Cut(text))] + rest
  {
    hide GroupText, Cut;
    assert [] + Windows(pages, perWindow, start + perWindow) == Windows(pages, perWindow, start + perWindow);
  }

  lemma WindowsStep(pages: seq<string>, perWindow: int, start: nat, windows: seq<PageWindow>, text: string)
    requires 1 <= perWindow && start < |pages| && text == GroupText(pages, perWindow, start)
    ensures windows + Windows(pages, perWindow, start) ==
              (if text == "" then windows else windows + [PageWindow(start + 1, Min(start + perWindow, |pages|), Cut(text))])
              + Windows(pages, perWindow, start + perWindow)
  {
    Unfold(pages, perWindow, start);
    hide GroupText, Cut, Windows;
  }

  lemma WindowsEnd(pages: seq<string>, perWindow: int, start: nat)
    requires 1 <= perWindow && start >= |pages|
    ensures Windows(pages, perWindow, start) == []
  {
  }

  // ------------------------------------------------------------------ what a window holds

  /** How many characters come before page p when one newline follows every page. */
  function Offset(pages: seq<string>, p: nat): nat
    requires p <= |pages|
  {
    if p == 0 then 0 else Offset(pages, p - 1) + |pages[p - 1]| + 1
  }

  /** Every page stands in the text at its own offset, in order, and one newline between two pages;
      nothing else does. */
  ghost predicate LaidOut(pages: seq<string>, text: string) {
    && (if pages == [] then text == "" else |text| + 1 == Offset(pages, |pages|))
    && PagesStand(pages, text) && NewlinesStand(pages, text)
  }

  /** From the first visible character to the last one. */
  ghost predicate VisiblePart(text: string, lo: nat, hi: nat) {
    && lo < hi <= |text| && !Space(text[lo]) && !Space(text[hi - 1])
    && (forall i :: 0 <= i < lo ==> Space(text[i])) && (forall i :: hi <= i < |text| ==> Space(text[i]))
  }

  lemma {:induction false} OffsetShifts(pages: seq<string>, p: nat)
    requires 1 <= p <= |pages|
    ensures Offset(pages, p) == |pages[0]| + 1 + Offset(pages[1..], p - 1)
    decreases p
  {
    if p > 1 { OffsetShifts(pages, p - 1); }
  }

  /** Character k of page p stands where it belongs. */
  predicate CharStands(pages: seq<string>, text: string, p: nat, k: nat)
    requires p < |pages| && k < |pages[p]|
  {
    Offset(pages, p) + k < |text| && text[Offset(pages, p) + k] == pages[p][k]
  }

  predicate PagesStand(pages: seq<string>, text: string) {
    forall p: nat, k: nat :: p < |pages| && k < |pages[p]| ==> CharStands(pages, text, p, k)
  }

  predicate NewlineStands(pages: seq<string>, text: string, p: nat)
    requires p < |pages|
  {
    0 < Offset(pages, p) <= |text| && text[Offset(pages, p) - 1] == '\n'
  }

  predicate NewlinesStand(pages: seq<string>, text: string) {
    forall p: nat :: 0 < p < |pages| ==> NewlineStands(pages, text, p)
  }

  lemma CharShifts(pages: seq<string>, rest: string, text: string, p: nat, k: nat)
    requires p < |pages| && k < |pages[p]| && text == pages[0] + "\n" + rest
    requires p > 0 ==> CharStands(pages[1..], rest, p - 1, k)
    ensures CharStands(pages, text, p, k)
  {
    if p > 0 {
      OffsetShifts(pages, p);
      hide Offset;
      var front, at := pages[0] + "\n", Offset(pages[1..], p - 1) + k;
      assert (front + rest)[|front| + at] == rest[at];
    }
  }

  lemma PagesShift(pages: seq<string>, rest: string, text: string)
    requires |pages| > 1 && PagesStand(pages[1..], rest) && text == pages[0] + "\n" + rest
    ensures PagesStand(pages, text)
  {
    hide CharStands;
    forall p: nat, k: nat | p < |pages| && k < |pages[p]| ensures CharStands(pages, text, p, k) {
      if p > 0 { assert pages[1..][p - 1] == pages[p] && CharStands(pages[1..], rest, p - 1, k); }
      CharShifts(pages, rest, text, p, k);
    }
  }

  lemma NewlineShifts(pages: seq<string>, rest: string, text: string, p: nat)
    requires 1 <= p < |pages| && text == pages[0] + "\n" + rest
    requires p > 1 ==> NewlineStands(pages[1..], rest, p - 1)
    ensures NewlineStands(pages, text, p)
  {
    OffsetShifts(pages, p);
    if p > 1 {
      hide Offset;
      var front, at := pages[0] + "\n", Offset(pages[1..], p - 1);
      assert (front + rest)[|front| + at - 1] == rest[at - 1];
    }
  }

  lemma NewlinesShift(pages: seq<string>, rest: string, text: string)
    requires |pages| > 1 && NewlinesStand(pages[1..], rest) && text == pages[0] + "\n" + rest
    ensures NewlinesStand(pages, text)
  {
    hide NewlineStands;
    forall p: nat | 0 < p < |pages| ensures NewlineStands(pages, text, p) {
      if p > 1 { assert NewlineStands(pages[1..], rest, p - 1); }
      NewlineShifts(pages, rest, text, p);
    }
  }

  lemma {:induction false} JoinLaysOut(pages: seq<string>)
    ensures LaidOut(pages, Join(pages))
    decreases |pages|
  {
    hide PagesStand, NewlinesStand;
    if |pages| > 1 {
      JoinLaysOut(pages[1..]);
      PagesShift(pages, Join(pages[1..]), Join(pages));
      NewlinesShift(pages, Join(pages[1..]), Join(pages));
      OffsetShifts(pages, |pages|);
    } else {
      FewPages(pages);
    }
  }

  lemma FewPages(pages: seq<string>)
    requires |pages| <= 1
    ensures LaidOut(pages, Join(pages))
  {
    if pages != [] { assert Offset(pages, 1) == |pages[0]| + 1; }
  }

  lemma {:induction false} StripLeftCuts(s: string) returns (lo: nat)
    ensures lo <= |s| && StripLeft(s) == s[lo..]
    ensures (forall i :: 0 <= i < lo ==> Space(s[i])) && (lo < |s| ==> !Space(s[lo]))
    decreases |s|
  {
    hide Space;
    if s != "" && Space(s[0]) {
      var rest := StripLeftCuts(s[1..]);
      lo := rest + 1;
      assert forall i :: 0 < i < |s| ==> s[i] == s[1..][i - 1];
    } else {
      lo := 0;
    }
  }

  lemma {:induction false} StripRightCuts(s: string) returns (hi: nat)
    ensures hi <= |s| && StripRight(s) == s[..hi]
    ensures (forall i :: hi <= i < |s| ==> Space(s[i])) && (0 < hi ==> !Space(s[hi - 1]))
    decreases |s|
  {
    hide Space;
    if s != "" && Space(s[|s| - 1]) {
      hi := StripRightCuts(s[..|s| - 1]);
    } else {
      hi := |s|;
    }
  }

  /** strip() keeps exactly the visible part. */
  lemma StripIsVisiblePart(s: string) returns (lo: nat, hi: nat)
    requires Strip(s) != ""
    ensures VisiblePart(s, lo, hi) && Strip(s) == s[lo..hi]
  {
    hide Space, StripLeft, StripRight;
    lo := StripLeftCuts(s);
    var left := StripLeft(s);
    var right := StripRightCuts(left);
    hi := lo + right;
    assert forall i :: 0 <= i < |left| ==> left[i] == s[lo + i];
    assert Strip(s) == left[..right];
    forall i | hi <= i < |s| ensures Space(s[i]) {
      assert s[i] == left[i - lo];
    }
  }

  ghost predicate HoldsPart(pages: seq<string>, w: PageWindow, whole: string, lo: nat, hi: nat)
    requires 1 <= w.pageStart <= w.pageEnd <= |pages|
  {
    && LaidOut(pages[w.pageStart - 1..w.pageEnd], whole) && VisiblePart(whole, lo, hi)
    && w.text == whole[lo..Min(hi, lo + MAX_WINDOW_CHARS)]
  }

  /** The window holds the text of its own pages, in their order and one newline apart, from the
      first visible character on: up to the last one, or the first 12000 characters of that. */
  ghost predicate HoldsItsPages(pages: seq<string>, w: PageWindow) {
    1 <= w.pageStart <= w.pageEnd <= |pages| && exists whole, lo, hi :: HoldsPart(pages, w, whole, lo, hi)
  }

  lemma CutSlice(whole: string, lo: nat, hi: nat)
    requires lo <= hi <= |whole|
    ensures Cut(whole[lo..hi]) == whole[lo..Min(hi, lo + MAX_WINDOW_CHARS)]
  {
  }

  lemma GroupHoldsItsPages(pages: seq<string>, perWindow: int, start: nat)
    requires 1 <= perWindow && start < |pages| && GroupText(pages, perWindow, start) != ""
    ensures HoldsItsPages(pages, PageWindow(start + 1, Min(start + perWindow, |pages|), Cut(GroupText(pages, perWindow, start))))
  {
    var end := Min(start + perWindow, |pages|);
    var w := PageWindow(start + 1, end, Cut(GroupText(pages, perWindow, start)));
    var whole := Join(pages[start..end]);
    JoinLaysOut(pages[start..end]);
    var lo, hi := StripIsVisiblePart(whole);
    hide LaidOut, Strip, Join, Cut, Space;
    CutSlice(whole, lo, hi);
    assert HoldsPart(pages, w, whole, lo, hi);
  }

  lemma {:induction false} WindowsHoldTheirPages(pages: seq<string>, perWindow: int, start: nat)
    requires 1 <= perWindow
    ensures forall w :: w in Windows(pages, perWindow, start) ==> HoldsItsPages(pages, w)
    decreases |pages| - start
  {
    hide HoldsItsPages, GroupText, Cut;
    if start < |pages| {
      Unfold(pages, perWindow, start);
      hide Windows;
      WindowsHoldTheirPages(pages, perWindow, start + perWindow);
      if GroupText(pages, perWindow, start) != "" { GroupHoldsItsPages(pages, perWindow, start); }
    }
  }

  /** Builds the windows page group by page group. */
  method PlanPageWindows(pages: seq<string>, perWindow: int) returns (result: Result<seq<PageWindow>, CardError>)
    ensures !(1 <= perWindow <= 4) ==> result == Failure(BadPagesPerWindow)
    ensures 1 <= perWindow <= 4 && !(1 <= |pages| <= MAX_PAGES) ==> result == Failure(BadPageCount)
    ensures 1 <= perWindow <= 4 && 1 <= |pages| <= MAX_PAGES ==>
              result == if 1 <= |Windows(pages, perWindow, 0)| <= MAX_WINDOWS then Success(Windows(pages, perWindow, 0)) else Failure(OverBudget)
    ensures result.Success? ==> forall w :: w in result.value ==> HoldsItsPages(pages, w)
  {
    hide Windows, Strip, Join, NewWindow, Cut, HoldsItsPages;
    if !(1 <= perWindow <= 4) {
      return Failure(BadPagesPerWindow);
    }
    if !(1 <= |pages| <= MAX_PAGES) {
      return Failure(BadPageCount);
    }
    var windows: seq<PageWindow> := [];
    var start := 0;
    while start < |pages|
      invariant 0 <= start && Windows(pages, perWindow, 0) == windows + Windows(pages, perWindow, start)
      decreases |pages| - start
    {
      var text := Strip(Join(pages[start..Min(start + perWindow, |pages|)]));
      WindowsStep(pages, perWindow, start, windows, text);
      if text != "" {
        NeverRejected(pages, perWindow, start);
        var window := NewWindow(start + 1, Min(start + perWindow, |pages|), Cut(text));
        assert window.Success?;
        windows := windows + [window.value];
      }
      start := start + perWindow;
    }
    WindowsEnd(pages, perWindow, start);
    assert windows + [] == windows;
    if windows == [] || |windows| > MAX_WINDOWS {
      return Failure(OverBudget);
    }
    WindowsHoldTheirPages(pages, perWindow, 0);
    result := Success(windows);
  }

  // ------------------------------------------------------------------ what a plan covers

  /** Window w is page group g, its text cut to the limit. */
  predicate IsGroup(pages: seq<string>, perWindow: int, g: nat, w: PageWindow)
    requires 1 <= perWindow
  {
    && w.pageStart == GroupStart(g, perWindow) + 1 && 1 <= w.pageStart <= |pages|
    && w.pageEnd == Min(GroupStart(g, perWindow) + perWindow, |pages|)
    && w.text == Cut(GroupText(pages, perWindow, w.pageStart - 1)) && w.text != ""
  }

  ghost predicate SomeGroup(pages: seq<string>, perWindow: int, w: PageWindow)
    requires 1 <= perWindow
  {
    exists g: nat :: IsGroup(pages, perWindow, g, w)
  }

  lemma {:induction false} WindowsAreGroups(pages: seq<string>, perWindow: int, g: nat, start: nat)
    requires 1 <= perWindow && start == GroupStart(g, perWindow)
    ensures forall w :: w in Windows(pages, perWindow, start) ==> SomeGroup(pages, perWindow, w)
    decreases |pages| - start
  {
    hide GroupText;
    if start < |pages| {
      Unfold(pages, perWindow, start);
      hide Windows;
      WindowsAreGroups(pages, perWindow, g + 1, start + perWindow);
      var text := GroupText(pages, perWindow, start);
      if text != "" {
        assert IsGroup(pages, perWindow, g, PageWindow(start + 1, Min(start + perWindow, |pages|), Cut(text)));
      }
    }
  }

  /** Nonempty page spans after page `from`, each ending before the next one starts. */
  ghost predicate Ordered(ws: seq<PageWindow>, from: int) {
    && (forall i :: 0 <= i < |ws| ==> from < ws[i].pageStart <= ws[i].pageEnd)
    && (forall i, j :: 0 <= i < j < |ws| ==> ws[i].pageEnd < ws[j].pageStart)
  }

  lemma OrderedAfter(w: PageWindow, rest: seq<PageWindow>, from: int, next: int)
    requires Ordered(rest, next) && from < w.pageStart <= w.pageEnd <= next
    ensures Ordered([w] + rest, from)
  {
    var ws := [w] + rest;
    forall i | 0 <= i < |ws| ensures from < ws[i].pageStart <= ws[i].pageEnd {
      if i > 0 { assert ws[i] == rest[i - 1]; }
    }
    forall i, j | 0 <= i < j < |ws| ensures ws[i].pageEnd < ws[j].pageStart {
      assert ws[j] == rest[j - 1];
      if i > 0 { assert ws[i] == rest[i - 1]; }
    }
  }

  lemma LaterStill(ws: seq<PageWindow>, from: int, next: int)
    requires Ordered(ws, next) && from <= next
    ensures Ordered(ws, from)
  {
  }

  lemma IncreaseStep(pages: seq<string>, perWindow: int, start: nat)
    requires 1 <= perWindow && start < |pages|
    requires Ordered(Windows(pages, perWindow, start + perWindow), start + perWindow)
    ensures Ordered(Windows(pages, perWindow, start), start)
  {
    hide Windows, Ordered, GroupText, Cut;
    Unfold(pages, perWindow, start);
    LaterStill(Windows(pages, perWindow, start + perWindow), start, start + perWindow);
    var text := GroupText(pages, perWindow, start);
    if text != "" {
      OrderedAfter(PageWindow(start + 1, Min(start + perWindow, |pages|), Cut(text)), Windows(pages, perWindow, start + perWindow),
                   start, start + perWindow);
    }
  }

  lemma {:induction false} WindowsIncrease(pages: seq<string>, perWindow: int, start: nat)
    requires 1 <= perWindow
    ensures Ordered(Windows(pages, perWindow, start), start)
    decreases |pages| - start
  {
    if start >= |pages| {
      WindowsEnd(pages, perWindow, start);
    } else {
      WindowsIncrease(pages, perWindow, start + perWindow);
      IncreaseStep(pages, perWindow, start);
    }
  }

  lemma {:induction false} WindowsCover(pages: seq<string>, perWindow: int, start: nat, p: nat)
    requires 1 <= perWindow && start <= p < |pages| && !Blank(pages[p])
    ensures exists i :: 0 <= i < |Windows(pages, perWindow, start)| &&
                        Windows(pages, perWindow, start)[i].pageStart <= p + 1 <= Windows(pages, perWindow, start)[i].pageEnd
    decreases |pages| - start
  {
    var ws := Windows(pages, perWindow, start);
    GroupHasText(pages, perWindow, start);
    if p < start + perWindow {
      assert HasText(pages, start, Min(start + perWindow, |pages|));
      assert ws[0].pageStart <= p + 1 <= ws[0].pageEnd;
    } else {
      WindowsCover(pages, perWindow, start + perWindow, p);
      var rest := Windows(pages, perWindow, start + perWindow);
      var i :| 0 <= i < |rest| && rest[i].pageStart <= p + 1 <= rest[i].pageEnd;
      assert rest[i] == ws[|ws| - |rest| + i];
    }
  }

  ghost predicate SharePage(v: PageWindow, w: PageWindow) {
    exists p: int :: InWindow(p, v) && InWindow(p, w)
  }

  predicate InWindow(p: int, w: PageWindow) {
    w.pageStart <= p <= w.pageEnd
  }

  /** The windows of a plan are increasing and disjoint, each is one aligned group of pages, and
      every page with extractable text lies in exactly one of them. */
  lemma PlanCoversOnce(pages: seq<string>, perWindow: int)
    requires 1 <= perWindow
    ensures var ws := Windows(pages, perWindow, 0);
            && (forall w :: w in ws ==> SomeGroup(pages, perWindow, w))
            && (forall i, j :: 0 <= i < j < |ws| ==> ws[i].pageEnd < ws[j].pageStart)
            && (forall p :: 0 <= p < |pages| && !Blank(pages[p]) ==>
                  exists i :: 0 <= i < |ws| && ws[i].pageStart <= p + 1 <= ws[i].pageEnd)
            && (forall i, j :: 0 <= i < |ws| && 0 <= j < |ws| && i != j ==> !SharePage(ws[i], ws[j]))
  {
    WindowsAreGroups(pages, perWindow, 0, 0);
    WindowsIncrease(pages, perWindow, 0);
    forall p | 0 <= p < |pages| && !Blank(pages[p])
      ensures exists i :: 0 <= i < |Windows(pages, perWindow, 0)| &&
                          Windows(pages, perWindow, 0)[i].pageStart <= p + 1 <= Windows(pages, perWindow, 0)[i].pageEnd
    {
      WindowsCover(pages, perWindow, 0, p);
    }
  }

  // ------------------------------------------------------------------ the budget

  function ExtractableFrom(pages: seq<string>, perWindow: int, g: nat): set<nat>
    requires 1 <= perWindow
  {
    set h | h in Extractable(pages, perWindow) && g <= h
  }

  lemma {:induction false} WindowsCount(pages: seq<string>, perWindow: int, g: nat, start: nat)
    requires 1 <= perWindow && start == GroupStart(g, perWindow)
    ensures |Windows(pages, perWindow, start)| == |ExtractableFrom(pages, perWindow, g)|
    decreases |pages| - start
  {
    hide GroupText, HasText;
    var here := ExtractableFrom(pages, perWindow, g);
    if start < |pages| {
      Unfold(pages, perWindow, start);
      hide Windows;
      WindowsCount(pages, perWindow, g + 1, start + perWindow);
      GroupHasText(pages, perWindow, start);
      var later := ExtractableFrom(pages, perWindow, g + 1);
      assert g in here <==> GroupHolds(pages, perWindow, g);
      if g in here {
        assert here == later + {g};
      } else {
        assert here == later && GroupText(pages, perWindow, start) == "";
      }
    } else {
      forall h | h in here ensures false { GroupStartGrows(g, h, perWindow); }
      assert here == {};
    }
  }

  lemma {:induction false} GroupStartGrows(g: nat, h: nat, perWindow: nat)
    requires g <= h
    ensures GroupStart(g, perWindow) <= GroupStart(h, perWindow)
    decreases h
  {
    if g < h { GroupStartGrows(g, h - 1, perWindow); }
  }

  lemma {:induction false} WindowsAtMostHalf(pages: seq<string>, perWindow: int, start: nat)
    requires 2 <= perWindow
    ensures 2 * |Windows(pages, perWindow, start)| <= if start < |pages| then |pages| - start + 1 else 0
    decreases |pages| - start
  {
    hide GroupText;
    if start < |pages| { WindowsAtMostHalf(pages, perWindow, start + perWindow); }
  }

  /** Planning succeeds exactly when the window size and page count are in range and between one
      and fifty page groups have extractable text. */
  lemma PlanSucceedsExactly(pages: seq<string>, perWindow: int)
    requires 1 <= perWindow
    ensures |Windows(pages, perWindow, 0)| == |Extractable(pages, perWindow)|
    ensures |Windows(pages, perWindow, 0)| >= 1 <==> HasText(pages, 0, |pages|)
  {
    hide GroupText, Windows;
    WindowsCount(pages, perWindow, 0, 0);
    assert ExtractableFrom(pages, perWindow, 0) == Extractable(pages, perWindow);
    if HasText(pages, 0, |pages|) {
      var p :| 0 <= p < |pages| && !Blank(pages[p]);
      WindowsCover(pages, perWindow, 0, p);
    }
    if Extractable(pages, perWindow) != {} {
      var g :| g in Extractable(pages, perWindow);
      var p :| GroupStart(g, perWindow) <= p < Min(GroupStart(g, perWindow) + perWindow, |pages|) && !Blank(pages[p]);
      assert 0 <= p < |pages|;
    }
  }

  /** With at least two pages per window the budget is never exceeded for up to 100 pages. */
  lemma TwoPagesAlwaysFit(pages: seq<string>, perWindow: int)
    requires 2 <= perWindow && |pages| <= MAX_PAGES
    ensures |Windows(pages, perWindow, 0)| <= MAX_WINDOWS
  {
    WindowsAtMostHalf(pages, perWindow, 0);
  }

  /** The text of a window is the whole text of its pages if and only if that text has at most
      12000 characters: a longer group is covered by page numbers, but its tail is dropped. */
  lemma WholeTextExactly(pages: seq<string>, perWindow: int, i: nat)
    requires 1 <= perWindow && i < |Windows(pages, perWindow, 0)|
    ensures var w := Windows(pages, perWindow, 0)[i];
            && 1 <= w.pageStart <= |pages|
            && (w.text == GroupText(pages, perWindow, w.pageStart - 1) <==> |GroupText(pages, perWindow, w.pageStart - 1)| <= MAX_WINDOW_CHARS)
  {
    WindowsAreGroups(pages, perWindow, 0, 0);
    assert SomeGroup(pages, perWindow, Windows(pages, perWindow, 0)[i]);
  }

  lemma StripNothing(s: string)
    requires s != "" && !Space(s[0]) && !Space(s[|s| - 1])
    ensures Strip(s) == s
  {
  }

  /** The failing side: one visible page of 12001 characters loses its last one. */
  lemma LongPageIsCut() returns (pages: seq<string>)
    ensures |Windows(pages, 1, 0)| == 1 && Windows(pages, 1, 0)[0].pageStart == 1
    ensures |GroupText(pages, 1, 0)| == MAX_WINDOW_CHARS + 1 && Windows(pages, 1, 0)[0].text != GroupText(pages, 1, 0)
  {
    var page: string := seq(MAX_WINDOW_CHARS + 1, i => 'a');
    pages := [page];
    assert pages[0..Min(1, |pages|)] == pages;
    StripNothing(page);
    assert GroupText(pages, 1, 0) == page;
    assert Windows(pages, 1, 1) == [];
    WholeTextExactly(pages, 1, 0);
  }
}
