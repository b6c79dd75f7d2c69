/** The activity log of the controller (App.tsx:25, 41-43): entries are kept
    newest first and only the fifteen most recent survive. */
module ActivityLog {

  /** The four severities an entry may carry. */
  datatype LogKind = Info | Success | Warning | Error

  datatype LogEntry = LogEntry(message: string, kind: LogKind)

  /** How many entries the log keeps. */
  const MaxEntries: nat := 15

  function Min(a: int, b: int): int
  {
    if a <= b then a else b
  }

  /** The first `n` elements of `s`, or all of `s` when it is shorter. */
  function Take<T>(s: seq<T>, n: nat): (r: seq<T>)
    ensures |r| == Min(|s|, n)
    ensures r == s[..|r|]
  {
    if |s| <= n then s else s[..n]
  }

  /** The elements of `s` in the opposite order. */
  function Reverse<T>(s: seq<T>): (r: seq<T>)
    ensures |r| == |s|
    ensures forall i :: 0 <= i < |s| ==> r[i] == s[|s| - 1 - i]
  {
    if |s| == 0 then [] else Reverse(s[1..]) + [s[0]]
  }

  /** Logs one entry: it becomes the newest, the older entries follow in
      their old order, and the oldest ones beyond the cap are dropped. */
  function AddLog(log: seq<LogEntry>, entry: LogEntry): (r: seq<LogEntry>)
    ensures |r| == Min(|log| + 1, MaxEntries)
    ensures r[0] == entry
    ensures r[1..] == log[..|r| - 1]
  {
    Take([entry] + log, MaxEntries)
  }

  /** Logs `entries` one after another, the first one first. */
  function AddAll(log: seq<LogEntry>, entries: seq<LogEntry>): seq<LogEntry>
    decreases |entries|
  {
    if |entries| == 0 then log else AddAll(AddLog(log, entries[0]), entries[1..])
  }

  /** Truncating twice to the same bound is truncating once. */
  lemma TakeAppendTake<T>(a: seq<T>, b: seq<T>, n: nat)
    ensures Take(a + Take(b, n), n) == Take(a + b, n)
  {
  }

  /** A run of log calls leaves exactly the newest fifteen entries of
      "everything logged, latest first, then the old log". */
  lemma {:induction false} AddAllIsNewestFirst(log: seq<LogEntry>, entries: seq<LogEntry>)
    requires |log| <= MaxEntries
    ensures AddAll(log, entries) == Take(Reverse(entries) + log, MaxEntries)
    decreases |entries|
  {
    if |entries| == 0 {
      assert Reverse(entries) + log == log;
    } else {
      var e, rest := entries[0], entries[1..];
      AddAllIsNewestFirst(AddLog(log, e), rest);
      TakeAppendTake(Reverse(rest), [e] + log, MaxEntries);
      assert Reverse(entries) == Reverse(rest) + [e];
      assert Reverse(rest) + ([e] + log) == Reverse(entries) + log;
    }
  }

  /** The bound and the order as the log shows them: after any run of log
      calls the log holds min(old + new, 15) entries, and its first entries
      are the ones just logged, latest first. */
  lemma LogKeepsNewest(log: seq<LogEntry>, entries: seq<LogEntry>)
    requires |log| <= MaxEntries
    ensures |AddAll(log, entries)| == Min(|log| + |entries|, MaxEntries)
    ensures forall i :: 0 <= i < Min(|entries|, MaxEntries) ==>
              AddAll(log, entries)[i] == entries[|entries| - 1 - i]
  {
    AddAllIsNewestFirst(log, entries);
  }

  /** Twenty log calls on an empty log leave the fifteen latest, newest first. */
  lemma TwentyCallsKeepFifteen(entries: seq<LogEntry>)
    requires |entries| == 20
    ensures |AddAll([], entries)| == 15
    ensures AddAll([], entries)[0] == entries[19]
    ensures AddAll([], entries)[14] == entries[5]
  {
    LogKeepsNewest([], entries);
  }
}
