/**
 * A run's output: a list of pages, each an ordered list of problems. The
 * flattened list is the order in which the problems were generated.
 */
module Pages {
  import opened Types

  /** Problems on one printed page. */
  const PROBLEMS_PER_PAGE: nat := 12

  type Page = seq<MathProblem>

  /** All problems of all pages, page after page. */
  function Flatten(pages: seq<Page>): seq<MathProblem> {
    if pages == [] then [] else Flatten(pages[..|pages| - 1]) + pages[|pages| - 1]
  }

  /** Adding a page adds its problems at the end of the run. */
  lemma FlattenAppend(pages: seq<Page>, page: Page)
    ensures Flatten(pages + [page]) == Flatten(pages) + page
  {
    assert (pages + [page])[..|pages|] == pages;
  }

  predicate FullPages(pages: seq<Page>) {
    forall q :: 0 <= q < |pages| ==> |pages[q]| == PROBLEMS_PER_PAGE
  }

  lemma {:induction false} FlattenLength(pages: seq<Page>)
    requires FullPages(pages)
    ensures |Flatten(pages)| == PROBLEMS_PER_PAGE * |pages|
  {
    if pages != [] {
      FlattenLength(pages[..|pages| - 1]);
    }
  }

  /** Slot i of page q (both counted from 0) is problem q * 12 + i of the flattened run. */
  lemma {:induction false} FlattenAt(pages: seq<Page>, q: nat, i: nat)
    requires FullPages(pages) && q < |pages| && i < PROBLEMS_PER_PAGE
    ensures |Flatten(pages)| == PROBLEMS_PER_PAGE * |pages|
    ensures q * PROBLEMS_PER_PAGE + i < |Flatten(pages)|
    ensures Flatten(pages)[q * PROBLEMS_PER_PAGE + i] == pages[q][i]
  {
    FlattenLength(pages);
    var front := pages[..|pages| - 1];
    FlattenLength(front);
    if q < |pages| - 1 {
      FlattenAt(front, q, i);
    }
  }
}
