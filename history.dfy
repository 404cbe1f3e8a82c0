/** The list of recent audits (src/hooks/useAuditHistory.ts): newest first,
    one entry per URL, at most ten entries. */
module History {
  import opened Wrappers
  import opened Seqs
  import opened AuditTypes

  const MaxHistory: nat := 10

  /** One remembered audit. `timestamp` is the audit's creation time in
      milliseconds; the hook stores its ISO-8601 rendering. */
  datatype StoredAudit = StoredAudit(url: string, timestamp: int, score: int, isWordPress: bool)

  function EntryOf(result: AuditResult): StoredAudit {
    StoredAudit(result.url, result.timestamp, result.overallScore, result.isWordPress)
  }

  /** The entries of `prev` for other URLs than `url`, in their order. */
  function Others(prev: seq<StoredAudit>, url: string): seq<StoredAudit> {
    Filter(prev, (h: StoredAudit) => h.url != url)
  }

  /** The `setHistory` updater of `addToHistory`: drop the older entries for
      the same URL, put the new entry in front, keep the first ten. */
  function AddEntry(prev: seq<StoredAudit>, entry: StoredAudit): seq<StoredAudit> {
    var updated := [entry] + Others(prev, entry.url);
    updated[..if |updated| < MaxHistory then |updated| else MaxHistory]
  }

  /** The new entry heads the list, the list never exceeds ten entries, no
      later entry repeats the head's URL, and the rest is the start of the
      old list with that URL removed. */
  lemma AddEntryShape(prev: seq<StoredAudit>, entry: StoredAudit)
    ensures var h := AddEntry(prev, entry);
      h != [] && h[0] == entry
      && |h| <= MaxHistory
      && (forall i :: 1 <= i < |h| ==> h[i].url != entry.url)
      && h[1..] <= Others(prev, entry.url)
      && |h| == if 1 + |Others(prev, entry.url)| < MaxHistory then 1 + |Others(prev, entry.url)| else MaxHistory
  {
    var others := Others(prev, entry.url);
    var h := AddEntry(prev, entry);
    forall i | 1 <= i < |h|
      ensures h[i].url != entry.url
    {
      assert h[i] == others[i - 1];
    }
  }

  /** URLs pairwise distinct. */
  predicate UniqueUrls(h: seq<StoredAudit>) {
    forall i, j :: 0 <= i < j < |h| ==> h[i].url != h[j].url
  }

  lemma {:induction false} FilterKeepsUniqueUrls(s: seq<StoredAudit>, keep: StoredAudit -> bool)
    requires UniqueUrls(s)
    ensures UniqueUrls(Filter(s, keep))
  {
    if s != [] {
      var init := s[..|s| - 1];
      var x := s[|s| - 1];
      FilterKeepsUniqueUrls(init, keep);
      if keep(x) {
        var f := Filter(init, keep);
        forall i | 0 <= i < |f|
          ensures f[i].url != x.url
        {
          assert f[i] in init;
        }
      }
    }
  }

  /** A history with one entry per URL keeps that property. */
  lemma AddEntryKeepsUniqueUrls(prev: seq<StoredAudit>, entry: StoredAudit)
    requires UniqueUrls(prev)
    ensures UniqueUrls(AddEntry(prev, entry))
  {
    var others := Others(prev, entry.url);
    FilterKeepsUniqueUrls(prev, (h: StoredAudit) => h.url != entry.url);
    var h := AddEntry(prev, entry);
    forall i, j | 0 <= i < j < |h|
      ensures h[i].url != h[j].url
    {
      if i > 0 {
        assert h[i] == others[i - 1] && h[j] == others[j - 1];
      } else {
        assert h[j] == others[j - 1];
      }
    }
  }

  /** Recording the same audit twice in a row leaves the history as the
      first recording left it. */
  lemma AddEntryTwice(prev: seq<StoredAudit>, entry: StoredAudit)
    ensures AddEntry(AddEntry(prev, entry), entry) == AddEntry(prev, entry)
  {
    var keep := (h: StoredAudit) => h.url != entry.url;
    var others := Others(prev, entry.url);
    var h := AddEntry(prev, entry);
    var tail := h[1..];
    assert h == [entry] + tail;
    FilterAllKept(tail, keep);
    FilterDropsLast([entry], tail, keep);
    assert Others(h, entry.url) == tail;
  }

  lemma {:induction false} FilterAllKept<T>(s: seq<T>, keep: T -> bool)
    requires forall i :: 0 <= i < |s| ==> keep(s[i])
    ensures Filter(s, keep) == s
  {
    if s != [] {
      FilterAllKept(s[..|s| - 1], keep);
    }
  }

  /** Filtering `a + b` where nothing of `a` is kept and all of `b` is. */
  lemma {:induction false} FilterDropsLast<T>(a: seq<T>, b: seq<T>, keep: T -> bool)
    requires forall i :: 0 <= i < |a| ==> !keep(a[i])
    requires forall i :: 0 <= i < |b| ==> keep(b[i])
    ensures Filter(a + b, keep) == b
    decreases |b|
  {
    if b == [] {
      assert a + b == a;
      FilterNoneKept(a, keep);
    } else {
      assert (a + b)[..|a + b| - 1] == a + b[..|b| - 1];
      FilterDropsLast(a, b[..|b| - 1], keep);
    }
  }

  lemma {:induction false} FilterNoneKept<T>(s: seq<T>, keep: T -> bool)
    requires forall i :: 0 <= i < |s| ==> !keep(s[i])
    ensures Filter(s, keep) == []
  {
    if s != [] {
      FilterNoneKept(s[..|s| - 1], keep);
    }
  }

  /** The hook's `history` state. Writes to `localStorage` are left out;
      a storage failure never stops the in-memory update. */
  class AuditHistory {
    var history: seq<StoredAudit>

    constructor()
      ensures history == []
    {
      history := [];
    }

    /** The mount-time load: `stored` is the parsed saved list, or `None`
        when nothing is saved or it does not parse. */
    method Load(stored: Option<seq<StoredAudit>>)
      modifies this
      ensures history == if stored.Some? then stored.value else old(history)
    {
      if stored.Some? {
        history := stored.value;
      }
    }

    /** `addToHistory`. */
    method AddToHistory(result: AuditResult)
      modifies this
      ensures history == AddEntry(old(history), EntryOf(result))
      ensures history != [] && history[0] == EntryOf(result) && |history| <= MaxHistory
      ensures UniqueUrls(old(history)) ==> UniqueUrls(history)
    {
      var newEntry := StoredAudit(result.url, result.timestamp, result.overallScore, result.isWordPress);
      var filtered := Filter(history, (h: StoredAudit) => h.url != result.url);
      var updated := [newEntry] + filtered;
      AddEntryShape(history, newEntry);
      if UniqueUrls(history) {
        AddEntryKeepsUniqueUrls(history, newEntry);
      }
      history := updated[..if |updated| < MaxHistory then |updated| else MaxHistory];
    }

    /** `clearHistory`. */
    method ClearHistory()
      modifies this
      ensures history == []
    {
      history := [];
    }
  }
}
