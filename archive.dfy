/** The calculation history of either generation: a newest-first log of saved
    calculations, capped at 50, looked up by exact id. `S` is the generation's own
    snapshot (cart copy, discount, totals). */
module Archive {
  import opened Common

  /** The retention cap of the history. */
  const Cap: nat := 50

  /** A saved calculation: its id (the save time stamp), its ISO date, the client
      metadata and the generation's snapshot. */
  datatype Record<S> = Record(id: int, date: string, client: Client, snapshot: S)

  /** `history.unshift(calculation); if (history.length > 50) history.pop();` */
  function Pushed<S>(history: seq<Record<S>>, saved: Record<S>): seq<Record<S>> {
    var h := [saved] + history;
    if |h| > Cap then h[..|h| - 1] else h
  }

  /** `history.find(c => c.id === id)`: the first (newest) record with that id. */
  function Find<S>(history: seq<Record<S>>, id: int): (r: Option<Record<S>>)
    ensures r.None? <==> forall k :: 0 <= k < |history| ==> history[k].id != id
    ensures r.Some? ==> r.value.id == id
    ensures r.Some? ==> exists k :: (0 <= k < |history| && history[k] == r.value
                                     && forall j :: 0 <= j < k ==> history[j].id != id)
  {
    if history == [] then None
    else if history[0].id == id then Some(history[0])
    else
      var r := Find(history[1..], id);
      assert forall k :: 1 <= k < |history| ==> history[k] == history[1..][k - 1];
      r
  }

  /** The new calculation becomes element 0, followed by the old history, which
      loses its oldest record exactly when the log would exceed the cap. */
  lemma PushedShape<S>(history: seq<Record<S>>, saved: Record<S>)
    ensures var r := Pushed(history, saved);
      && r[0] == saved
      && (|history| < Cap ==> r[1..] == history)
      && (|history| >= Cap ==> r[1..] == history[..|history| - 1])
  {
  }

  /** A history of at most 50 records stays at most 50 records long, and a longer
      one (written by something else) does not grow. */
  lemma PushedBounded<S>(history: seq<Record<S>>, saved: Record<S>)
    ensures |history| <= Cap ==> |Pushed(history, saved)| <= Cap
    ensures |history| >= Cap ==> |Pushed(history, saved)| == |history|
    ensures |history| < Cap ==> |Pushed(history, saved)| == |history| + 1
  {
  }

  /** Saving `saves` one after another, oldest first, into `history`. */
  function PushAll<S>(history: seq<Record<S>>, saves: seq<Record<S>>): seq<Record<S>> {
    if saves == [] then history
    else Pushed(PushAll(history, saves[..|saves| - 1]), saves[|saves| - 1])
  }

  /** Saving any number of calculations into an empty history keeps exactly the
      newest 50 of them (all of them when there are at most 50), newest first. So
      the 51st save evicts the oldest. */
  lemma {:induction false} PushAllRetainsNewest<S>(saves: seq<Record<S>>)
    ensures |PushAll([], saves)| == if |saves| <= Cap then |saves| else Cap
    ensures forall k :: 0 <= k < |PushAll([], saves)| ==> PushAll([], saves)[k] == saves[|saves| - 1 - k]
  {
    if saves != [] {
      var prefix := saves[..|saves| - 1];
      PushAllRetainsNewest(prefix);
      var h := PushAll([], prefix);
      var last := saves[|saves| - 1];
      assert PushAll([], saves) == Pushed(h, last);
      forall k | 0 <= k < |Pushed(h, last)| ensures Pushed(h, last)[k] == saves[|saves| - 1 - k] {
        if k > 0 {
          assert Pushed(h, last)[k] == h[k - 1];
          assert h[k - 1] == prefix[|prefix| - 1 - (k - 1)];
        }
      }
    }
  }

  /** A record just saved is the one that an immediate load of its id finds. */
  lemma FindPushed<S>(history: seq<Record<S>>, saved: Record<S>)
    ensures Find(Pushed(history, saved), saved.id) == Some(saved)
  {
    var r := Pushed(history, saved);
    assert r[0] == saved;
  }
}
