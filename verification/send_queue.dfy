/** Vocabulary shared by both versions of the TCP sender: the disconnect
    sentinel, the state of the consumer's socket, the faults the environment
    may inject into one consumer step, and the prefix of a queue that the
    consumer loop transmits before it meets the sentinel. */
module SendQueue {

  /** The value `disconnect` pushes; the consumer loop stops when it takes it
      and never writes it. */
  const Sentinel: string := ""

  datatype Option<+T> = None | Some(value: T)

  /** The consumer's socket: never connected, connected and open, or closed
      by the cleanup that runs on every exit from the loop. */
  datatype Socket = NoSocket | Open | Released

  /** What goes wrong, if anything, in one turn of the consumer loop: the
      write (or flush) throws, or the blocking take is interrupted. */
  datatype StepFault = NoFault | WriteFault | Interrupt

  /** The items the consumer loop writes when it drains `q` without faults:
      the longest prefix of `q` free of the sentinel. The three clauses
      determine the result uniquely. */
  function UpToSentinel(q: seq<string>): (r: seq<string>)
    ensures Sentinel !in r
    ensures |r| <= |q| && r == q[..|r|]
    ensures |r| < |q| ==> q[|r|] == Sentinel
  {
    if q == [] || q[0] == Sentinel then [] else [q[0]] + UpToSentinel(q[1..])
  }

  /** A queue without a sentinel is transmitted whole. */
  lemma SentinelFreeSentWhole(q: seq<string>)
    requires Sentinel !in q
    ensures UpToSentinel(q) == q
  {
  }

  /** Draining `a` and then `b`: once a sentinel is in `a`, nothing of `b`
      is ever transmitted; otherwise all of `a` is, followed by what
      draining `b` transmits. */
  lemma {:induction false} UpToSentinelAppend(a: seq<string>, b: seq<string>)
    ensures UpToSentinel(a + b) == if Sentinel in a then UpToSentinel(a) else a + UpToSentinel(b)
  {
    if a == [] {
      assert a + b == b;
    } else {
      assert (a + b)[0] == a[0];
      assert (a + b)[1..] == a[1..] + b;
      UpToSentinelAppend(a[1..], b);
      assert Sentinel in a <==> a[0] == Sentinel || Sentinel in a[1..] by {
        assert a == [a[0]] + a[1..];
      }
      if a[0] != Sentinel && Sentinel !in a[1..] {
        assert [a[0]] + (a[1..] + UpToSentinel(b)) == a + UpToSentinel(b);
      }
    }
  }
}
