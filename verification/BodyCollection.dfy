/** Collecting a request body of unknown framing into a buffer that never exceeds the fixed limit. */
module BodyCollection {

  const LIMIT := 1_048_576

  newtype Byte = x: int | 0 <= x < 256

  /** What waiting for the next frame brings; a body ends where the frames do. */
  datatype Frame = Data(bytes: seq<Byte>) | Trailers | Broken | TooLate

  datatype Collected = Collected(body: seq<Byte>) | BoundExceeded | TransportFailure | Unavailable

  function Bytes(f: Frame): seq<Byte> {
    if f.Data? then f.bytes else []
  }

  /** The data of the frames, joined. */
  function Joined(frames: seq<Frame>): seq<Byte> {
    if frames == [] then [] else Joined(frames[..|frames| - 1]) + Bytes(frames[|frames| - 1])
  }

  lemma {:induction false} JoinedGrows(frames: seq<Frame>, n: nat)
    requires n <= |frames|
    ensures Joined(frames[..n]) <= Joined(frames)
  {
    if n < |frames| {
      JoinedGrows(frames[..|frames| - 1], n);
      assert frames[..|frames| - 1][..n] == frames[..n];
    } else {
      assert frames[..n] == frames;
    }
  }

  /** The first `n` frames arrive in time and unbroken. */
  ghost predicate Smooth(frames: seq<Frame>, alive: nat -> bool, n: nat)
    requires n <= |frames|
  {
    forall i :: 0 <= i < n ==> alive(i) && !frames[i].Broken? && !frames[i].TooLate?
  }

  /**
   The buffer's cost so far: below the limit it doubles, so copying stays within its size, and within twice the
   content.
   */
  ghost predicate Amortized(copied: nat, capacity: nat, length: nat) {
    && length <= capacity <= LIMIT
    && (capacity < LIMIT ==> copied <= capacity)
    && copied <= 2 * length
  }

  /** A buffer of the new capacity with the old content. */
  method Regrown(buffer: array<Byte>, length: nat, target: nat) returns (larger: array<Byte>)
    requires length <= buffer.Length <= target
    ensures fresh(larger) && larger.Length == target && larger[..length] == buffer[..length]
  {
    larger := new Byte[target];
    for i := 0 to length
      invariant larger[..i] == buffer[..i]
    {
      larger[i] := buffer[i];
    }
  }

  /** Appends the data to the content in place. */
  method Append(buffer: array<Byte>, length: nat, data: seq<Byte>)
    requires length + |data| <= buffer.Length
    modifies buffer
    ensures buffer[..length + |data|] == old(buffer[..length]) + data
  {
    forall i | 0 <= i < |data| {
      buffer[length + i] := data[i];
    }
  }

  /** Twice the capacity, or what is needed if that is more, but never past the limit. */
  function Target(capacity: nat, received: nat): (target: nat)
    requires capacity < received <= LIMIT
    ensures received <= target <= LIMIT && (target < LIMIT ==> 2 * capacity <= target)
  {
    var doubled := if 2 * capacity < received then received else 2 * capacity;
    if doubled < LIMIT then doubled else LIMIT
  }

  lemma GrowthIsAmortized(copied: nat, capacity: nat, length: nat, received: nat)
    requires Amortized(copied, capacity, length) && capacity < received <= LIMIT && length <= received
    ensures Amortized(copied + length, Target(capacity, received), received)
  {
  }

  /** Takes in one frame's data, regrowing the buffer first if it does not fit. */
  method Receive(buffer: array<Byte>, length: nat, copied: nat, data: seq<Byte>)
    returns (larger: array<Byte>, total: nat)
    requires Amortized(copied, buffer.Length, length) && length + |data| <= LIMIT
    modifies buffer
    ensures larger == buffer || fresh(larger)
    ensures Amortized(total, larger.Length, length + |data|)
    ensures larger[..length + |data|] == old(buffer[..length]) + data
  {
    larger, total := buffer, copied;
    if length + |data| > buffer.Length {
      GrowthIsAmortized(copied, buffer.Length, length, length + |data|);
      total := copied + length;
      larger := Regrown(buffer, length, Target(buffer.Length, length + |data|));
    }
    Append(larger, length, data);
  }

  lemma NothingJoined(frames: seq<Frame>)
    ensures Joined(frames[..0]) == []
  {
  }

  lemma JoinedNext(frames: seq<Frame>, i: nat)
    requires i < |frames|
    ensures Joined(frames[..i + 1]) == Joined(frames[..i]) + Bytes(frames[i])
    ensures Joined(frames[..i + 1]) <= Joined(frames)
  {
    assert frames[..i + 1][..i] == frames[..i];
    JoinedGrows(frames, i + 1);
  }

  /**
   Collects the body. It returns the joined data exactly when every frame arrives and together they stay within the
   limit, however they are split; the buffer never exceeds the limit, and all regrowth together copies at most twice
   the bytes received.
   */
  method CollectBody(frames: seq<Frame>, alive: nat -> bool)
    returns (r: Collected, capacity: nat, copied: nat, received: nat)
    ensures capacity <= LIMIT && received <= LIMIT && copied <= 2 * received
    ensures r.Collected? ==> r.body == Joined(frames) && received == |r.body|
    ensures r.Collected? ==> Smooth(frames, alive, |frames|) && alive(|frames|)
    ensures Smooth(frames, alive, |frames|) && alive(|frames|) ==>
              r == if |Joined(frames)| <= LIMIT then Collected(Joined(frames)) else BoundExceeded
    ensures r.BoundExceeded? ==>
              exists n :: 0 <= n <= |frames| && Smooth(frames, alive, n) && |Joined(frames[..n])| > LIMIT
    ensures r.Unavailable? ==>
              exists n :: 0 <= n <= |frames| && Smooth(frames, alive, n) && received == |Joined(frames[..n])|
                          && (!alive(n) || (n < |frames| && frames[n].TooLate?))
    ensures r.TransportFailure? ==>
              exists n ::
                && 0 <= n < |frames| && Smooth(frames, alive, n) && received == |Joined(frames[..n])|
                && frames[n].Broken?
  {
    hide Joined;
    var buffer := new Byte[0];
    assert buffer[..0] == Joined(frames[..0]) by { NothingJoined(frames); }
    var length: nat := 0;
    copied := 0;
    var i := 0;
    while true
      invariant 0 <= i <= |frames| && fresh(buffer) && Amortized(copied, buffer.Length, length)
      invariant Smooth(frames, alive, i) && buffer[..length] == Joined(frames[..i])
      decreases |frames| - i
    {
      JoinedGrows(frames, i);
      if !alive(i) {
        return Unavailable, buffer.Length, copied, length;
      }
      if i == |frames| {
        assert frames[..i] == frames;
        return Collected(buffer[..length]), buffer.Length, copied, length;
      }
      if frames[i].TooLate? {
        return Unavailable, buffer.Length, copied, length;
      }
      if frames[i].Broken? {
        return TransportFailure, buffer.Length, copied, length;
      }
      JoinedNext(frames, i);
      if frames[i].Data? {
        if length + |frames[i].bytes| > LIMIT {
          assert Smooth(frames, alive, i + 1);
          return BoundExceeded, buffer.Length, copied, length;
        }
        buffer, copied := Receive(buffer, length, copied, frames[i].bytes);
        length := length + |frames[i].bytes|;
      }
      i := i + 1;
    }
  }
}
