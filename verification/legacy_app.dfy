/**
 * The reading-history logic of the vanilla app (app.js): the deck, the current reading, the
 * history of saved readings (newest first, at most 20) and its copy under the key
 * `vesper-readings`. The random numbers of the shuffle, the clock and the user's confirmation
 * are inputs; the DOM rendering around these operations is not part of the model.
 */
module LegacyApp {
  import opened Wrappers
  import opened Seqs

  datatype Card = Card(id: string, name: string, description: string)

  /** `currentReading` and the entries of `readingHistory`. */
  datatype Entry = Entry(cards: seq<Card>, date: string, timestamp: int)

  /** What `localStorage.getItem('vesper-readings')` yields: nothing (or ""), unparseable text, or a list. */
  datatype HistorySlot = NothingStored | Unparseable | StoredList(entries: seq<Entry>)

  /** Readings kept in the history at most. */
  const HistoryLimit: nat := 20

  /**
   * Random draws for a Fisher–Yates shuffle of `n` items: `draws[i]` is
   * `Math.floor(Math.random() * (i + 1))`, so it lies in `[0, i]`.
   */
  predicate ValidDraws(n: nat, draws: seq<nat>) {
    |draws| == n && forall i :: 0 < i < n ==> draws[i] <= i
  }

  /** The swaps the shuffle's loop makes at positions `i`, `i - 1`, ..., 1, in that order. */
  function ShuffleFrom<T>(s: seq<T>, draws: seq<nat>, i: nat): (r: seq<T>)
    requires ValidDraws(|s|, draws) && i < |s|
    ensures |r| == |s|
    decreases i
  {
    if i == 0 then s
    else ShuffleFrom(Swap(s, i, draws[i]), draws, i - 1)
  }

  /** The swaps from position `i` down rearrange the sequence: nothing is added or lost. */
  lemma {:induction false} ShuffleFromPermutes<T>(s: seq<T>, draws: seq<nat>, i: nat)
    requires ValidDraws(|s|, draws) && i < |s|
    ensures multiset(ShuffleFrom(s, draws, i)) == multiset(s)
    decreases i
  {
    if i > 0 {
      SwapPermutes(s, i, draws[i]);
      ShuffleFromPermutes(Swap(s, i, draws[i]), draws, i - 1);
    }
  }

  /** One turn of the shuffle's loop: the swap at position `i`, then the turns below it. */
  lemma ShuffleStep<T>(s: seq<T>, draws: seq<nat>, i: nat)
    requires ValidDraws(|s|, draws) && 0 < i < |s|
    ensures ShuffleFrom(Swap(s, i, draws[i]), draws, i - 1) == ShuffleFrom(s, draws, i)
  {
  }

  /** The result of the shuffle of `s` with the given draws: a permutation of `s`. */
  function Shuffled<T>(s: seq<T>, draws: seq<nat>): (r: seq<T>)
    requires ValidDraws(|s|, draws)
    ensures |r| == |s| && multiset(r) == multiset(s)
  {
    if |s| == 0 then s
    else
      ShuffleFromPermutes(s, draws, |s| - 1);
      ShuffleFrom(s, draws, |s| - 1)
  }

  /** `[a[i], a[j]] = [a[j], a[i]]` on the array. */
  method SwapInPlace<T>(a: array<T>, i: nat, j: nat)
    requires i < a.Length && j < a.Length
    modifies a
    ensures a[..] == Swap(old(a[..]), i, j)
  {
    a[i], a[j] := a[j], a[i];
  }

  /**
   * shuffle: Fisher–Yates on a copy of the argument, swapping from the last position down to the
   * second. The argument is a value and is never changed.
   */
  method Shuffle<T>(cards: seq<T>, draws: seq<nat>) returns (shuffled: seq<T>)
    requires ValidDraws(|cards|, draws)
    ensures shuffled == Shuffled(cards, draws)
    ensures |shuffled| == |cards| && multiset(shuffled) == multiset(cards)
  {
    if |cards| == 0 {
      return cards;
    }
    var a := new T[|cards|](k requires 0 <= k < |cards| => cards[k]);
    assert a[..] == cards;
    var i := |cards| - 1;
    while i > 0
      invariant 0 <= i < a.Length == |cards|
      invariant ShuffleFrom(a[..], draws, i) == Shuffled(cards, draws)
    {
      ShuffleStep(a[..], draws, i);
      SwapInPlace(a, i, draws[i]);
      i := i - 1;
    }
    shuffled := a[..];
  }

  /** The history after saving `entry`: it goes in front, and only the first 20 are kept. */
  function SavedHistory(entry: Entry, history: seq<Entry>): (h: seq<Entry>)
    ensures 0 < |h| <= HistoryLimit
    ensures h[0] == entry
    ensures h[1..] == Take(history, HistoryLimit - 1)
  {
    var h := [entry] + history;
    if |h| > HistoryLimit then h[..HistoryLimit] else h
  }

  /** Where `splice(index, 1)` starts for a list of length `len`: a negative index counts from the end. */
  function SpliceStart(len: nat, index: int): (start: nat)
    ensures start <= len
    ensures 0 <= index < len ==> start == index
  {
    if index < 0 then (if len + index < 0 then 0 else len + index)
    else if index < len then index else len
  }

  /** The app's state: the deck (`allCards`), `currentReading`, `readingHistory` and the stored copy. */
  class App {
    var deck: seq<Card>
    var current: Option<Entry>
    var history: seq<Entry>
    var saved: HistorySlot
    const canSave: bool  // whether `localStorage.setItem` succeeds

    constructor (deck: seq<Card>, saved: HistorySlot, canSave: bool)
      ensures this.deck == deck && current.None? && history == []
      ensures this.saved == saved && this.canSave == canSave
    {
      this.deck := deck;
      current := None;
      history := [];
      this.saved := saved;
      this.canSave := canSave;
    }

    /** saveHistory: the history is written when the write succeeds; a failure is swallowed. */
    method SaveHistory()
      modifies this`saved
      ensures saved == if canSave then StoredList(history) else old(saved)
    {
      if canSave {
        saved := StoredList(history);
      }
    }

    /** drawCards: the current reading holds the first `count` cards of a shuffled copy of the deck. */
    method DrawCards(count: nat, draws: seq<nat>, date: string, now: int)
      requires ValidDraws(|deck|, draws)
      modifies this`current
      ensures current == Some(Entry(Take(Shuffled(deck, draws), count), date, now))
      ensures |current.value.cards| == if count < |deck| then count else |deck|
      ensures multiset(current.value.cards) <= multiset(deck)
    {
      var shuffled := Shuffle(deck, draws);
      current := Some(Entry(Take(shuffled, count), date, now));
    }

    /** saveReading: without a current reading nothing happens; otherwise it goes in front, capped at 20, and is stored. */
    method SaveReading()
      modifies this`history, this`saved
      ensures old(current).None? ==> history == old(history) && saved == old(saved)
      ensures old(current).Some? ==> history == SavedHistory(old(current).value, old(history))
      ensures old(current).Some? ==> |history| <= HistoryLimit && history[0] == old(current).value
      ensures old(current).Some? ==> saved == if canSave then StoredList(history) else old(saved)
    {
      if current.None? {
        return;
      }
      history := [current.value] + history;
      if |history| > HistoryLimit {
        history := history[..HistoryLimit];
      }
      SaveHistory();
    }

    /** resetToDrawSection: the current reading is dropped. */
    method ResetToDrawSection()
      modifies this`current
      ensures current.None?
    {
      current := None;
    }

    /** loadHistory: a stored list replaces the history, nothing stored leaves it, unparseable text empties it. */
    method LoadHistory()
      modifies this`history
      ensures saved.NothingStored? ==> history == old(history)
      ensures saved.Unparseable? ==> history == []
      ensures saved.StoredList? ==> history == saved.entries
    {
      match saved
      case NothingStored =>
      case Unparseable =>
        history := [];
      case StoredList(entries) =>
        history := entries;
    }

    /** deleteReading: `splice(index, 1)`, then the history is stored. */
    method DeleteReading(index: int)
      modifies this`history, this`saved
      ensures 0 <= index < |old(history)| ==> history == RemoveAt(old(history), index)
      ensures var start := SpliceStart(|old(history)|, index);
              history == if start < |old(history)| then RemoveAt(old(history), start) else old(history)
      ensures saved == if canSave then StoredList(history) else old(saved)
    {
      var start := SpliceStart(|history|, index);
      if start < |history| {
        history := history[..start] + history[start + 1..];
      }
      SaveHistory();
    }

    /** viewReading: a saved entry becomes the current reading again; the history is untouched. */
    method ViewReading(entry: Entry)
      modifies this`current
      ensures current == Some(entry)
    {
      current := Some(entry);
    }

    /** clearHistory: only a confirmed clear empties and stores the history. */
    method ClearHistory(confirmed: bool)
      modifies this`history, this`saved
      ensures confirmed ==> history == [] && saved == (if canSave then StoredList([]) else old(saved))
      ensures !confirmed ==> history == old(history) && saved == old(saved)
    {
      if confirmed {
        history := [];
        SaveHistory();
      }
    }
  }

  /** Deleting at a valid index removes exactly that entry; the others keep their relative order. */
  lemma DeleteKeepsOthersInOrder(h: seq<Entry>, i: nat)
    requires i < |h|
    ensures var r := RemoveAt(h, i);
            multiset(r) + multiset{h[i]} == multiset(h) && IsSubsequence(r, h)
  {
    RemoveAtSubsequence(h, i);
  }
}
