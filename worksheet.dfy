/**
 * The text a printed sheet shows: the operator symbols, a problem written
 * on one line, the answer label of the answer key, the header and corner
 * labels, the problem numbers, and the order of the sheets in the preview.
 */
module Worksheet {
  import opened Types
  import opened Decimal
  import opened Pages
  import opened Seqs

  // ---------------------------------------------------------------------------
  // Operators and one-line problems
  // ---------------------------------------------------------------------------

  /** `getSymbol`: the printed operator. */
  function Symbol(op: MathOperation): (s: string)
    ensures |s| == 1 && s[0] != ' '
  {
    match op
    case Addition => "+"
    case Subtraction => "-"
    case Multiplication => "×"
    case Division => "÷"
  }

  /** The four operations print four different symbols, so the symbol names the operation. */
  lemma SymbolInjective(a: MathOperation, b: MathOperation)
    ensures Symbol(a) == Symbol(b) <==> a == b
  {
  }

  /** `formatProblemInline`: "num1 symbol num2" with single spaces. */
  function FormatProblemInline(p: MathProblem): (s: string)
    ensures |s| == |IntToString(p.num1)| + 3 + |IntToString(p.num2)|
    ensures s[|IntToString(p.num1)|] == ' ' && s[|IntToString(p.num1)| + 2] == ' '
    ensures s[..|IntToString(p.num1)|] == IntToString(p.num1)
    ensures s[|IntToString(p.num1)| + 1] == Symbol(p.operation)[0]
    ensures s[|s| - |IntToString(p.num2)|..] == IntToString(p.num2)
  {
    IntToString(p.num1) + " " + Symbol(p.operation) + " " + IntToString(p.num2)
  }

  /**
   * The one-line text names the problem: two problems print the same line
   * exactly when they have the same (num1, operation, num2).
   */
  lemma FormatProblemInlineInjective(p: MathProblem, q: MathProblem)
    ensures FormatProblemInline(p) == FormatProblemInline(q) <==> TripleOf(p) == TripleOf(q)
  {
    if FormatProblemInline(p) == FormatProblemInline(q) {
      var c1, c2 := Symbol(p.operation)[0], Symbol(q.operation)[0];
      assert Symbol(p.operation) == [c1] && Symbol(q.operation) == [c2];
      InlineParts(IntToString(p.num1), c1, IntToString(p.num2), IntToString(q.num1), c2, IntToString(q.num2));
      SymbolInjective(p.operation, q.operation);
      IntToStringInjective(p.num1, q.num1);
      IntToStringInjective(p.num2, q.num2);
    }
  }

  /** "a c b" with a made of number characters splits back into a, c and b. */
  lemma InlineParts(a1: string, c1: char, b1: string, a2: string, c2: char, b2: string)
    requires AllNumberChars(a1) && AllNumberChars(a2)
    requires a1 + " " + [c1] + " " + b1 == a2 + " " + [c2] + " " + b2
    ensures a1 == a2 && c1 == c2 && b1 == b2
  {
    var r1, r2 := " " + [c1] + " " + b1, " " + [c2] + " " + b2;
    assert a1 + " " + [c1] + " " + b1 == a1 + r1;
    assert a2 + " " + [c2] + " " + b2 == a2 + r2;
    SplitAtRunEnd(IsNumberChar, a1, r1, a2, r2);
    assert c1 == r1[1] == r2[1] == c2;
    assert b1 == r1[3..] == r2[3..] == b2;
  }

  // ---------------------------------------------------------------------------
  // The answer label of the answer key
  // ---------------------------------------------------------------------------

  /** How React prints the answer field: a number in decimal, a string as it is. */
  function AnswerText(a: Answer): (s: string)
    ensures a.NumberAnswer? ==> |s| >= 1 && AllNumberChars(s)
  {
    match a
    case NumberAnswer(v) => IntToString(v)
    case TextAnswer(t) => t
  }

  /** The remainder the label shows: a missing remainder and a zero remainder both show nothing. */
  function ShownRemainder(p: MathProblem): (r: Option<int>)
    ensures r.Some? ==> r.value != 0
    ensures r.Some? ==> r == p.remainder
    ensures p.remainder.Some? && p.remainder.value != 0 ==> r == p.remainder
  {
    if p.remainder.Some? && p.remainder.value != 0 then p.remainder else None
  }

  /** The answer label: the answer, then " R" and the remainder only when it is present and not zero. */
  function AnswerLabel(p: MathProblem): (shown: string)
    ensures |AnswerText(p.answer)| <= |shown|
    ensures shown[..|AnswerText(p.answer)|] == AnswerText(p.answer)
    ensures |shown| > |AnswerText(p.answer)| <==> ShownRemainder(p).Some?
  {
    AnswerText(p.answer) + RemainderSuffix(p)
  }

  function RemainderSuffix(p: MathProblem): (suffix: string)
    ensures suffix == [] <==> ShownRemainder(p).None?
    ensures suffix != [] ==> suffix[0] == ' '
  {
    match ShownRemainder(p)
    case None => ""
    case Some(r) => " R" + IntToString(r)
  }

  /** A whole-number quotient, or a remainder of 0, is labelled with the answer alone. */
  lemma AnswerLabelHidesZeroRemainder(p: MathProblem)
    requires p.remainder == None || p.remainder == Some(0)
    ensures AnswerLabel(p) == AnswerText(p.answer)
  {
  }

  /** A non-zero remainder is printed after the answer as " R" and its decimal text. */
  lemma AnswerLabelShowsRemainder(p: MathProblem, r: int)
    requires p.remainder == Some(r) && r != 0
    ensures AnswerLabel(p) == AnswerText(p.answer) + " R" + IntToString(r)
  {
  }

  /**
   * A number label can be read back: two numeric answers print the same
   * label exactly when they have the same answer and show the same remainder.
   */
  lemma AnswerLabelReadsBack(p: MathProblem, q: MathProblem)
    requires p.answer.NumberAnswer? && q.answer.NumberAnswer?
    ensures AnswerLabel(p) == AnswerLabel(q) <==> p.answer == q.answer && ShownRemainder(p) == ShownRemainder(q)
  {
    if AnswerLabel(p) == AnswerLabel(q) {
      var a1, a2 := AnswerText(p.answer), AnswerText(q.answer);
      var s1, s2 := RemainderSuffix(p) + "=", RemainderSuffix(q) + "=";
      ConcatAssoc(a1, RemainderSuffix(p), "=");
      ConcatAssoc(a2, RemainderSuffix(q), "=");
      SplitAtRunEnd(IsNumberChar, a1, s1, a2, s2);
      IntToStringInjective(p.answer.value, q.answer.value);
      assert RemainderSuffix(p) == s1[..|s1| - 1] == s2[..|s2| - 1] == RemainderSuffix(q);
      if ShownRemainder(p).Some? && ShownRemainder(q).Some? {
        assert IntToString(ShownRemainder(p).value) == RemainderSuffix(p)[2..];
        assert IntToString(ShownRemainder(q).value) == RemainderSuffix(q)[2..];
        IntToStringInjective(ShownRemainder(p).value, ShownRemainder(q).value);
      }
    }
  }

  // ---------------------------------------------------------------------------
  // Header and corner labels
  // ---------------------------------------------------------------------------

  const KEY_TITLE_PREFIX := "Lösungen: "
  const KEY_DEFAULT_TITLE := "Lösungsschlüssel"
  const SHEET_DEFAULT_TITLE := "Matheübung"
  const KEY_CORNER := "Lösungsblatt"
  const PAGE_CORNER_PREFIX := "Seite "

  /** The header title of a worksheet (`isAnswerKey` false) or of an answer key. */
  function HeaderTitle(isAnswerKey: bool, title: string): (h: string)
    ensures |h| >= 1
    ensures title != [] ==> |title| <= |h| && h[|h| - |title|..] == title
    ensures title != [] && isAnswerKey ==> h == KEY_TITLE_PREFIX + title
    ensures title != [] && !isAnswerKey ==> h == title
    ensures title == [] ==> h == (if isAnswerKey then KEY_DEFAULT_TITLE else SHEET_DEFAULT_TITLE)
  {
    if isAnswerKey then
      (if title != [] then KEY_TITLE_PREFIX + title else KEY_DEFAULT_TITLE)
    else
      (if title != [] then title else SHEET_DEFAULT_TITLE)
  }

  /** Whatever the title, an answer key's header differs from its worksheet's. */
  lemma KeyHeaderDiffers(title: string)
    ensures HeaderTitle(true, title) != HeaderTitle(false, title)
  {
    if title != [] {
      assert |HeaderTitle(true, title)| == |KEY_TITLE_PREFIX| + |title|;
    } else {
      assert HeaderTitle(true, title)[0] != HeaderTitle(false, title)[0];
    }
  }

  /** The small label in the header's corner. */
  function CornerLabel(isAnswerKey: bool, pageNumber: int): (c: string)
    ensures isAnswerKey ==> c == KEY_CORNER
    ensures !isAnswerKey ==> |c| > 6 && c[..6] == PAGE_CORNER_PREFIX && c[6..] == IntToString(pageNumber)
  {
    if isAnswerKey then KEY_CORNER else PAGE_CORNER_PREFIX + IntToString(pageNumber)
  }

  /** Worksheet corners name their page: different pages, different labels, none equal to the key's. */
  lemma CornerLabelsDistinct(isKey1: bool, page1: int, isKey2: bool, page2: int)
    ensures CornerLabel(isKey1, page1) == CornerLabel(isKey2, page2) <==>
      isKey1 == isKey2 && (isKey1 || page1 == page2)
  {
    if !isKey1 && !isKey2 && CornerLabel(isKey1, page1) == CornerLabel(isKey2, page2) {
      IntToStringInjective(page1, page2);
    }
  }

  // ---------------------------------------------------------------------------
  // Problem numbers
  // ---------------------------------------------------------------------------

  /** The index a worksheet passes for its slot `idx` on page `pageNumber` (counted from 1). */
  function ProblemIndex(idx: int, pageNumber: int): (k: int)
    ensures 0 <= idx < PROBLEMS_PER_PAGE ==>
      (pageNumber - 1) * PROBLEMS_PER_PAGE <= k < pageNumber * PROBLEMS_PER_PAGE
  {
    idx + (pageNumber - 1) * PROBLEMS_PER_PAGE
  }

  /** The number printed beside a worksheet problem: its index plus one. */
  function WorksheetNumber(idx: int, pageNumber: int): (n: int)
    ensures 0 <= idx < PROBLEMS_PER_PAGE && pageNumber >= 1 ==> n >= 1
  {
    ProblemIndex(idx, pageNumber) + 1
  }

  /**
   * Numbering is consecutive across the pages of a run: slot i of page q + 1
   * has the index of its problem in the run, so no two slots share a number.
   */
  lemma ProblemIndexIsRunPosition(pages: seq<Page>, q: nat, i: nat)
    requires FullPages(pages) && q < |pages| && i < PROBLEMS_PER_PAGE
    ensures 0 <= ProblemIndex(i, q + 1) < |Flatten(pages)|
    ensures Flatten(pages)[ProblemIndex(i, q + 1)] == pages[q][i]
  {
    FlattenAt(pages, q, i);
  }

  lemma ProblemIndexInjective(idx1: int, page1: int, idx2: int, page2: int)
    requires 0 <= idx1 < PROBLEMS_PER_PAGE && 0 <= idx2 < PROBLEMS_PER_PAGE
    ensures ProblemIndex(idx1, page1) == ProblemIndex(idx2, page2) <==> idx1 == idx2 && page1 == page2
  {
  }

  /** As written: the answer key numbers the problems of each key sheet from 1 again. */
  function AnswerKeyNumberAsWritten(idx: int): (n: int)
    ensures 0 <= idx < PROBLEMS_PER_PAGE ==> 1 <= n <= PROBLEMS_PER_PAGE
  {
    idx + 1
  }

  /** On every key sheet after the first, the key's number and the worksheet's differ: "1)" answers problem 13 on page 2. */
  lemma AnswerKeyNumberingDiverges(idx: int, pageNumber: int)
    requires pageNumber >= 2
    ensures AnswerKeyNumberAsWritten(idx) != WorksheetNumber(idx, pageNumber)
    ensures AnswerKeyNumberAsWritten(0) == 1 && WorksheetNumber(0, 2) == 13
  {
  }

  /** Corrected: a key entry carries the number of the worksheet problem it answers. */
  function AnswerKeyNumber(idx: int, pageNumber: int): (n: int)
    ensures 0 <= idx < PROBLEMS_PER_PAGE && pageNumber >= 1 ==> n >= 1
  {
    WorksheetNumber(idx, pageNumber)
  }

  /** With the corrected numbers, entry i of key sheet q + 1 is numbered by the position of its problem in the run. */
  lemma AnswerKeyNumberIsRunPosition(pages: seq<Page>, q: nat, i: nat)
    requires FullPages(pages) && q < |pages| && i < PROBLEMS_PER_PAGE
    ensures 1 <= AnswerKeyNumber(i, q + 1) <= |Flatten(pages)|
    ensures Flatten(pages)[AnswerKeyNumber(i, q + 1) - 1] == pages[q][i]
  {
    ProblemIndexIsRunPosition(pages, q, i);
  }

  // ---------------------------------------------------------------------------
  // The sheets of the preview and the printout
  // ---------------------------------------------------------------------------

  datatype Sheet = Sheet(problems: Page, isAnswerKey: bool, pageNumber: int)

  /**
   * The preview: one worksheet per page, numbered from 1, then, when the
   * answer key is on, one key sheet per page in the same order.
   */
  function Sheets(pages: seq<Page>, generateAnswerKey: bool): (sheets: seq<Sheet>)
    ensures |sheets| == (if generateAnswerKey then 2 * |pages| else |pages|)
    ensures forall q :: 0 <= q < |pages| ==> sheets[q] == Sheet(pages[q], false, q + 1)
    ensures generateAnswerKey ==>
      forall q :: 0 <= q < |pages| ==> sheets[|pages| + q] == Sheet(pages[q], true, q + 1)
  {
    SheetRun(pages, false) + (if generateAnswerKey then SheetRun(pages, true) else [])
  }

  function SheetRun(pages: seq<Page>, isAnswerKey: bool): (run: seq<Sheet>)
    ensures |run| == |pages|
    ensures forall q :: 0 <= q < |pages| ==> run[q] == Sheet(pages[q], isAnswerKey, q + 1)
  {
    seq(|pages|, q requires 0 <= q < |pages| => Sheet(pages[q], isAnswerKey, q + 1))
  }

  /** Every problem of the run appears on exactly one worksheet, at its slot. */
  lemma WorksheetsCoverRun(pages: seq<Page>, generateAnswerKey: bool, k: nat)
    requires FullPages(pages) && k < PROBLEMS_PER_PAGE * |pages|
    ensures |Flatten(pages)| == PROBLEMS_PER_PAGE * |pages|
    ensures var sheet := Sheets(pages, generateAnswerKey)[k / PROBLEMS_PER_PAGE];
      && !sheet.isAnswerKey
      && sheet.pageNumber == k / PROBLEMS_PER_PAGE + 1
      && sheet.problems[k % PROBLEMS_PER_PAGE] == Flatten(pages)[k]
      && ProblemIndex(k % PROBLEMS_PER_PAGE, sheet.pageNumber) == k
  {
    FlattenLength(pages);
    var q, i := k / PROBLEMS_PER_PAGE, k % PROBLEMS_PER_PAGE;
    assert q < |pages|;
    FlattenAt(pages, q, i);
  }
}
