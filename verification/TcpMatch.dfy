/** agent/probe/tcp.go: looking for the expected bytes, however the connection splits the stream. */
module TcpMatch {
  import opened Basics

  type byte = bv8

  const MAX_PAYLOAD: nat := 4096
  const BUFFER: nat := 512

  predicate OccursAt(s: seq<byte>, t: seq<byte>, i: nat) {
    i + |t| <= |s| && s[i..i + |t|] == t
  }

  predicate Contains(s: seq<byte>, t: seq<byte>) {
    exists i :: 0 <= i <= |s| && OccursAt(s, t, i)
  }

  lemma ContainsGrows(s: seq<byte>, more: seq<byte>, t: seq<byte>)
    requires s <= more && Contains(s, t)
    ensures Contains(more, t)
  {
    var i :| 0 <= i <= |s| && OccursAt(s, t, i);
    assert more[i..i + |t|] == s[i..i + |t|];
    assert OccursAt(more, t, i);
  }

  /** To contain some bytes is to be made of something before them, them, and something after them. */
  lemma ContainsMeaning(s: seq<byte>, t: seq<byte>)
    ensures Contains(s, t) <==> exists before: seq<byte>, after: seq<byte> :: s == before + t + after
  {
    if Contains(s, t) {
      var i :| 0 <= i <= |s| && OccursAt(s, t, i);
      assert s == s[..i] + t + s[i + |t|..];
    }
    if before: seq<byte>, after: seq<byte> :| s == before + t + after {
      assert s[|before|..|before| + |t|] == t;
      assert OccursAt(s, t, |before|);
    }
  }

  lemma NothingInNothing(t: seq<byte>)
    requires t != []
    ensures !Contains([], t)
  {
  }

  /** How a stream ends: in order, or by a failure of the connection. */
  datatype Ending = EndOfFile | Failure

  /** How one read splits the stream: how much it gives at most, and whether the ending comes along with the last
      of it. */
  datatype Split = Split(count: nat, eager: bool)

  /** A connection that will deliver `left` and then its ending. The splits to come are arbitrary; when they run
      out, every read gives as much as it can. */
  class Connection {
    var left: seq<byte>
    var splits: seq<Split>
    const ending: Ending

    constructor (stream: seq<byte>, splits: seq<Split>, ending: Ending)
      ensures left == stream && this.splits == splits && this.ending == ending
    {
      left, this.splits, this.ending := stream, splits, ending;
    }

    method Read(limit: nat) returns (data: seq<byte>, err: Option<Ending>)
      requires limit > 0
      modifies this
      ensures |data| <= limit && old(left) == data + left
      ensures err.Some? ==> left == [] && err.value == ending
      ensures err == None ==> |left| + |splits| < old(|left| + |splits|)
    {
      var count, eager := Min(limit, |left|), true;
      if splits != [] {
        count, eager := Min(count, splits[0].count), splits[0].eager;
        splits := splits[1..];
      }
      data, left := left[..count], left[count..];
      err := if left == [] && eager then Some(ending) else None;
    }
  }

  function Window(stream: seq<byte>): seq<byte> {
    stream[..Min(|stream|, MAX_PAYLOAD)]
  }

  method ReadUntilExpected(connection: Connection, expected: seq<byte>) returns (observed: seq<byte>, err: Option<Ending>)
    requires expected != []
    modifies connection
    ensures observed <= Window(old(connection.left))
    ensures Contains(observed, expected) <==> Contains(Window(old(connection.left)), expected)
    ensures Contains(observed, expected) ==> err == None
    ensures !Contains(observed, expected) ==> observed == Window(old(connection.left))
    ensures err.Some? ==> err.value == connection.ending && |old(connection.left)| <= MAX_PAYLOAD
    ensures err == None && |observed| < MAX_PAYLOAD ==> Contains(observed, expected)
  {
    hide Contains;
    NothingInNothing(expected);
    ghost var stream := connection.left;
    observed := [];
    while |observed| < MAX_PAYLOAD
      invariant |observed| <= MAX_PAYLOAD && stream == observed + connection.left
      invariant !Contains(observed, expected)
      decreases |connection.left| + |connection.splits|
    {
      var remaining := MAX_PAYLOAD - |observed|;
      var data, failed := connection.Read(Min(BUFFER, remaining));
      if |data| != 0 {
        observed := observed + data;
        if Contains(observed, expected) {
          assert observed <= Window(stream);
          ContainsGrows(observed, Window(stream), expected);
          return observed, None;
        }
      } else {
        assert observed + data == observed;
      }
      if failed.Some? {
        assert observed == stream == Window(stream);
        return observed, failed;
      }
    }
    assert observed == Window(stream);
    err := None;
  }

  datatype Verdict = Passed | Mismatch(observed: seq<byte>) | IoError

  /** The expectation part of the TCP probe: it passes exactly if nothing is expected or the expected bytes occur
      within the first 4096 bytes of the stream, whatever the splits and however the stream ends. */
  method CheckExpectation(connection: Connection, expected: seq<byte>) returns (verdict: Verdict)
    modifies connection
    ensures verdict == Passed
            <==> expected == [] || Contains(old(connection.left)[..Min(|old(connection.left)|, 4096)], expected)
    ensures verdict.Mismatch? ==> verdict.observed == Window(old(connection.left))
    ensures verdict == IoError ==> connection.ending == Failure && |old(connection.left)| <= MAX_PAYLOAD
    ensures verdict.Mismatch? && connection.ending == Failure ==> |old(connection.left)| >= MAX_PAYLOAD
  {
    if |expected| != 0 {
      var observed, err := ReadUntilExpected(connection, expected);
      if err.Some? && err.value != EndOfFile {
        return IoError;
      }
      if !Contains(observed, expected) {
        return Mismatch(observed);
      }
    }
    verdict := Passed;
  }
}
