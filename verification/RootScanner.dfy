// scan_words: the conservative scan of a memory range, word by aligned word.
module RootScanner {
  import opened Words
  import opened Blocks

  // A naturally aligned word that lies completely between the endpoints, in either order.
  predicate WordBetween(begin: Address, end: Address, a: Address) {
    var lo, hi := if begin <= end then begin else end, if begin <= end then end else begin;
    a % WORD_SIZE == 0 && lo <= a && a + WORD_SIZE <= hi
  }

  // The words scan_words visits, by its own recurrence.
  function Visited(begin: Address, end: Address): seq<Address> {
    if begin == 0 || end == 0 then []
    else if begin <= end then From(AlignUp(begin), end)
    else From(AlignUp(end), begin)
  }

  function AlignUp(a: Address): nat {
    a + (WORD_SIZE - a % WORD_SIZE) % WORD_SIZE
  }

  function From(cur: nat, hi: Address): seq<Address>
    decreases hi - cur
  {
    if cur + WORD_SIZE <= hi then [cur] + From(cur + WORD_SIZE, hi) else []
  }

  lemma {:induction false} FromExact(cur: nat, hi: Address)
    requires cur % WORD_SIZE == 0
    ensures Ascending(From(cur, hi))
    ensures forall a :: a in From(cur, hi) <==> a % WORD_SIZE == 0 && cur <= a && a + WORD_SIZE <= hi
    decreases hi - cur
  {
    if cur + WORD_SIZE <= hi {
      var rest := From(cur + WORD_SIZE, hi);
      FromExact(cur + WORD_SIZE, hi);
      forall i, j | 0 <= i < j < |From(cur, hi)|
        ensures From(cur, hi)[i] < From(cur, hi)[j]
      {
        assert rest[j - 1] in rest;
      }
    }
  }

  // The scan visits exactly the aligned complete words of the range, each once, ascending.
  lemma VisitedExact(begin: Address, end: Address)
    ensures Ascending(Visited(begin, end))
    ensures begin == 0 || end == 0 ==> Visited(begin, end) == []
    ensures begin != 0 && end != 0 ==> forall a :: a in Visited(begin, end) <==> WordBetween(begin, end, a)
  {
    if begin != 0 && end != 0 {
      var lo, hi := if begin <= end then begin else end, if begin <= end then end else begin;
      FromExact(AlignUp(lo), hi);
    }
  }

  // The loop in machine words: every assignment below stays inside 64 bits, up to the last
  // word of the address space.
  method ScanWords(begin: Address, end: Address) returns (visited: seq<Address>)
    ensures visited == Visited(begin, end)
  {
    visited := [];
    if begin == 0 || end == 0 {
      return;
    }
    var start: Word, finish: Word := begin, end;
    if start > finish {
      start, finish := finish, start;
    }
    var padding: Word := (WORD_SIZE - start % WORD_SIZE) % WORD_SIZE;
    if finish - start < padding {
      return;
    }
    start := start + padding;
    var cur: Word := start;
    while finish - cur >= WORD_SIZE
      invariant start <= cur <= finish
      invariant visited + From(cur, finish) == From(start, finish)
    {
      visited := visited + [cur];
      cur := cur + WORD_SIZE;
    }
  }

  // The payload loop visits the same words as a range scan of the payload.
  lemma PayloadScanIsRangeScan(b: BlockRecord)
    requires 0 < b.payloadBegin < b.payloadEnd <= PAYLOAD_LIMIT && b.payloadBegin % WORD_SIZE == 0
    ensures |Visited(b.payloadBegin, b.payloadEnd)| == PayloadWords(b)
    ensures forall k: nat :: k < PayloadWords(b) ==>
              Visited(b.payloadBegin, b.payloadEnd)[k] == b.payloadBegin + WORD_SIZE * k
  {
    FromStrides(b.payloadBegin, b.payloadEnd);
  }

  lemma {:induction false} FromStrides(cur: nat, hi: Address)
    ensures |From(cur, hi)| == if cur <= hi then (hi - cur) / WORD_SIZE else 0
    ensures forall k: nat :: k < |From(cur, hi)| ==> From(cur, hi)[k] == cur + WORD_SIZE * k
    decreases hi - cur
  {
    if cur + WORD_SIZE <= hi {
      FromStrides(cur + WORD_SIZE, hi);
    }
  }
}
