/** The operator mini-inbox: a bounded log of messages per correspondent. */
module Inbox {
  import opened Wrappers

  datatype Direction = In | Out
  datatype Entry = Entry(dir: Direction, text: string, ts: nat)
  datatype Chat = Chat(name: string, messages: seq<Entry>)

  /** Most entries a chat log keeps. */
  const LogCap: nat := 200

  /** One push onto a log: the entry goes at the end and, when the log then
      exceeds the cap, the single oldest entry is dropped. */
  function Appended(log: seq<Entry>, e: Entry): (r: seq<Entry>)
    ensures |r| == if |log| < LogCap then |log| + 1 else |log|
    ensures |log| <= LogCap ==> |r| <= LogCap
    ensures r != [] && r[|r| - 1] == e
  {
    var l := log + [e];
    if |l| > LogCap then l[1..] else l
  }

  /** A push keeps the most recent entries in order: the result is a suffix of
      the log followed by the new entry. */
  lemma AppendedIsSuffix(log: seq<Entry>, e: Entry)
    ensures var r := Appended(log, e);
      r == (log + [e])[|log| + 1 - |r|..]
  {
  }

  /** A run of pushes, oldest first. */
  function AppendAll(log: seq<Entry>, es: seq<Entry>): seq<Entry>
    decreases |es|
  {
    if es == [] then log else AppendAll(Appended(log, es[0]), es[1..])
  }

  /** The last `LogCap` entries of `s` (all of them when there are fewer), in order. */
  function MostRecent(s: seq<Entry>): (r: seq<Entry>)
    ensures |r| == Min(|s|, LogCap)
  {
    s[|s| - Min(|s|, LogCap)..]
  }

  /** Dropping entries the cap would drop anyway does not change the most recent ones. */
  lemma MostRecentDrop(s: seq<Entry>, d: nat)
    requires d <= |s| - Min(|s|, LogCap)
    ensures MostRecent(s[d..]) == MostRecent(s)
  {
    var m := Min(|s|, LogCap);
    assert Min(|s| - d, LogCap) == m;
    assert s[d..][|s| - d - m..] == s[|s| - m..];
  }

  /** One push followed by the remaining entries is what was pushed, less what the push dropped. */
  lemma PushThenRest(log: seq<Entry>, es: seq<Entry>)
    requires es != []
    ensures var l1 := Appended(log, es[0]);
      l1 + es[1..] == (log + es)[|log| + 1 - |l1|..]
  {
    var x := log + [es[0]];
    var l1 := Appended(log, es[0]);
    AppendedIsSuffix(log, es[0]);
    assert x + es[1..] == log + es;
    var d := |x| - |l1|;
    assert x[d..] + es[1..] == (x + es[1..])[d..];
  }

  /** Whatever entries are pushed onto a log within the cap, the log is the
      most recent `LogCap` entries of everything pushed, in order. */
  lemma {:induction false} AppendAllKeepsMostRecent(log: seq<Entry>, es: seq<Entry>)
    requires |log| <= LogCap
    ensures AppendAll(log, es) == MostRecent(log + es)
    decreases |es|
  {
    if es == [] {
      assert log + es == log;
    } else {
      var l1 := Appended(log, es[0]);
      AppendAllKeepsMostRecent(l1, es[1..]);
      PushThenRest(log, es);
      MostRecentDrop(log + es, |log| + 1 - |l1|);
    }
  }
}
