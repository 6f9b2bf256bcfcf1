/** The odometry line framer (User/Modules/odometry_string/odometry_string.c).
    Bytes from the odometry UART arrive in chunks; each byte that is not a
    newline is stored at the next position of a persistent 59-byte buffer,
    and a newline hands the buffer to the "%f,%f,%f" scanner, restarts the
    buffer at position 0 and publishes the pose (metres scaled to
    millimetres) and its difference to the Action position. */
module OdometryString {
  import opened Base

  const BufferSize: nat := 59
  const Newline: U8 := 10
  /** Metres to millimetres. */
  const Scale: real := 1000.0

  /** sscanf(char_buf, "%f,%f,%f", ...) as the list of values it converts,
      in order; it stops at the first field it cannot convert. */
  type Scanner = seq<U8> -> seq<real>

  /** g_odometry_data: pos_x, pos_y, pos_yaw. */
  datatype Pose = Pose(x: real, y: real, yaw: real)

  /** Everything the parser keeps between calls: char_buf, recv_len,
      odo_data, g_odometry_data and g_delta_x/g_delta_y. */
  datatype Framer = Framer(buf: seq<U8>, recvLen: nat, odo: seq<real>, pose: Pose, deltaX: real, deltaY: real)

  predicate Shaped(p: Framer)
  {
    |p.buf| == BufferSize && |p.odo| == 3
  }

  /** odo_data after the scanner stored `vals`: converted slots take the new
      value, the others keep theirs. */
  function Scanned(odo: seq<real>, vals: seq<real>): (r: seq<real>)
    requires |odo| == 3
    ensures |r| == 3
  {
    seq(3, k requires 0 <= k < 3 => if k < |vals| then vals[k] else odo[k])
  }

  /** The loop body for one byte. A non-newline byte is written at
      char_buf[recv_len] with no bound check, so it needs recv_len < 59. */
  function Feed(p: Framer, b: U8, scan: Scanner, ax: real, ay: real): (r: Framer)
    requires Shaped(p) && (b == Newline || p.recvLen < BufferSize)
    ensures Shaped(r)
  {
    if b == Newline then
      var o := Scanned(p.odo, scan(p.buf));
      var pose := Pose(Scale * o[0], Scale * o[1], o[2]);
      p.(recvLen := 0, odo := o, pose := pose, deltaX := pose.x - ax, deltaY := pose.y - ay)
    else
      p.(buf := p.buf[p.recvLen := b], recvLen := p.recvLen + 1)
  }

  /** Starting from `recvLen`, no byte of `bytes` is stored past the end
      of the buffer. */
  predicate Fits(recvLen: nat, bytes: seq<U8>)
    decreases |bytes|
  {
    bytes == []
    || (if bytes[0] == Newline then Fits(0, bytes[1..])
        else recvLen < BufferSize && Fits(recvLen + 1, bytes[1..]))
  }

  /** The whole loop over a chunk. */
  function FeedAll(p: Framer, bytes: seq<U8>, scan: Scanner, ax: real, ay: real): (r: Framer)
    requires Shaped(p) && Fits(p.recvLen, bytes)
    ensures Shaped(r)
    decreases |bytes|
  {
    if bytes == [] then p else FeedAll(Feed(p, bytes[0], scan, ax, ay), bytes[1..], scan, ax, ay)
  }

  predicate NoNewline(line: seq<U8>)
  {
    forall i :: 0 <= i < |line| ==> line[i] != Newline
  }

  /** Bytes without a newline only extend the buffer: they land at
      recv_len onwards, every other byte of the buffer and the published
      pose stay as they were. */
  lemma {:induction false} StoreRun(p: Framer, line: seq<U8>, scan: Scanner, ax: real, ay: real)
    requires Shaped(p) && NoNewline(line) && p.recvLen + |line| <= BufferSize
    ensures Fits(p.recvLen, line)
    ensures FeedAll(p, line, scan, ax, ay)
            == p.(buf := p.buf[..p.recvLen] + line + p.buf[p.recvLen + |line|..], recvLen := p.recvLen + |line|)
    decreases |line|
  {
    if line == [] {
      assert p.buf[..p.recvLen] + line + p.buf[p.recvLen..] == p.buf;
    } else {
      var q := Feed(p, line[0], scan, ax, ay);
      assert NoNewline(line[1..]) by {
        forall i | 0 <= i < |line[1..]| ensures line[1..][i] != Newline {
          assert line[1..][i] == line[i + 1];
        }
      }
      StoreRun(q, line[1..], scan, ax, ay);
      StoreStep(p.buf, p.recvLen, line);
    }
  }

  /** Writing the first byte of `line` at `r` and the rest after it is
      writing `line` at `r`. */
  lemma StoreStep(buf: seq<U8>, r: nat, line: seq<U8>)
    requires r + |line| <= |buf| && line != []
    ensures var b := buf[r := line[0]];
            b[..r + 1] + line[1..] + b[r + |line|..] == buf[..r] + line + buf[r + |line|..]
  {
    var b := buf[r := line[0]];
    assert b[..r + 1] == buf[..r] + [line[0]];
    assert b[r + |line|..] == buf[r + |line|..];
    assert [line[0]] + line[1..] == line;
  }

  /** A chunk split in two and fed in two calls gives the state one call
      gives: a partial line carries over through recv_len and the buffer. */
  lemma {:induction false} FeedAllSplits(p: Framer, a: seq<U8>, b: seq<U8>, scan: Scanner, ax: real, ay: real)
    requires Shaped(p) && Fits(p.recvLen, a + b)
    ensures Fits(p.recvLen, a)
    ensures Fits(FeedAll(p, a, scan, ax, ay).recvLen, b)
    ensures FeedAll(FeedAll(p, a, scan, ax, ay), b, scan, ax, ay) == FeedAll(p, a + b, scan, ax, ay)
    decreases |a|
  {
    if a == [] {
      assert a + b == b;
    } else {
      assert (a + b)[0] == a[0] && (a + b)[1..] == a[1..] + b;
      var q := Feed(p, a[0], scan, ax, ay);
      FeedAllSplits(q, a[1..], b, scan, ax, ay);
    }
  }

  /** A line of at most 59 bytes, started at position 0 and ended by a
      newline, is scanned from a buffer that holds the line followed by
      whatever the earlier, longer lines left behind (the buffer is neither
      cleared nor terminated); the pose is the scanned values with x and y
      scaled, the deltas are taken against the Action position, and the
      next line starts at position 0 again. */
  lemma LineIsScanned(p: Framer, line: seq<U8>, scan: Scanner, ax: real, ay: real)
    requires Shaped(p) && p.recvLen == 0 && NoNewline(line) && |line| <= BufferSize
    ensures Fits(0, line + [Newline])
    ensures var r := FeedAll(p, line + [Newline], scan, ax, ay);
            && r.recvLen == 0
            && r.buf == line + p.buf[|line|..]
            && r.odo == Scanned(p.odo, scan(line + p.buf[|line|..]))
            && r.pose == Pose(Scale * r.odo[0], Scale * r.odo[1], r.odo[2])
            && r.deltaX == r.pose.x - ax && r.deltaY == r.pose.y - ay
  {
    StoreRun(p, line, scan, ax, ay);
    var q := FeedAll(p, line, scan, ax, ay);
    assert q.buf == line + p.buf[|line|..];
    assert Fits(q.recvLen, [Newline]) by {
      assert [Newline][1..] == [];
    }
    FitsJoin(p.recvLen, line, [Newline]);
    FeedAllSplits(p, line, [Newline], scan, ax, ay);
    assert FeedAll(q, [Newline], scan, ax, ay) == Feed(q, Newline, scan, ax, ay) by {
      assert [Newline][1..] == [];
    }
  }

  /** Fits of a prefix and of the rest from where the prefix leaves
      recv_len gives Fits of the whole. */
  lemma {:induction false} FitsJoin(n: nat, a: seq<U8>, b: seq<U8>)
    requires NoNewline(a) && n + |a| <= BufferSize && Fits(n + |a|, b)
    ensures Fits(n, a + b)
    decreases |a|
  {
    if a == [] {
      assert a + b == b;
    } else {
      assert (a + b)[0] == a[0] && (a + b)[1..] == a[1..] + b;
      assert NoNewline(a[1..]) by {
        forall i | 0 <= i < |a[1..]| ensures a[1..][i] != Newline {
          assert a[1..][i] == a[i + 1];
        }
      }
      assert a[0] != Newline;
      FitsJoin(n + 1, a[1..], b);
    }
  }

  class OdometryParser {
    /** The static char_buf[59] and odo_data[3]. */
    const charBuf: array<U8>
    const odoData: array<real>
    /** The static recv_len. */
    var recvLen: nat
    /** g_odometry_data and g_delta_x/g_delta_y. */
    var pose: Pose
    var deltaX: real
    var deltaY: real

    predicate Valid()
      reads this
    {
      charBuf.Length == BufferSize && odoData.Length == 3
    }

    function State(): (p: Framer)
      reads this, charBuf, odoData
      requires Valid()
      ensures Shaped(p)
    {
      Framer(charBuf[..], recvLen, odoData[..], pose, deltaX, deltaY)
    }

    /** The zero-initialised statics. */
    constructor ()
      ensures Valid() && fresh(charBuf) && fresh(odoData)
      ensures State() == Framer(seq(BufferSize, _ => 0), 0, [0.0, 0.0, 0.0], Pose(0.0, 0.0, 0.0), 0.0, 0.0)
    {
      charBuf := new U8[BufferSize](_ => 0);
      odoData := new real[3](_ => 0.0);
      recvLen := 0;
      pose := Pose(0.0, 0.0, 0.0);
      deltaX, deltaY := 0.0, 0.0;
    }

    /** The newline branch: scan the buffer into odo_data, restart at
        position 0 and publish the pose and the deltas. */
    method EndLine(scan: Scanner, ax: real, ay: real)
      requires Valid()
      modifies this`recvLen, this`pose, this`deltaX, this`deltaY, odoData
      ensures State() == Feed(old(State()), Newline, scan, ax, ay)
    {
      recvLen := 0;
      var o := Scanned(odoData[..], scan(charBuf[..]));
      odoData[0], odoData[1], odoData[2] := o[0], o[1], o[2];
      assert odoData[..] == o;
      pose := Pose(Scale * odoData[0], Scale * odoData[1], odoData[2]);
      deltaX := pose.x - ax;
      deltaY := pose.y - ay;
    }

    /** odometry_parse_data: runs every byte of data[..len] through the
        framer, with (ax, ay) the Action position at the time, then zeroes
        data[..len]. The counter is a uint8_t, so the loop ends only for
        len <= 255. */
    method ParseData(data: array<U8>, len: nat, scan: Scanner, ax: real, ay: real)
      requires Valid() && data != charBuf && len <= data.Length && len <= 255
      requires Fits(recvLen, data[..len])
      modifies this`recvLen, this`pose, this`deltaX, this`deltaY, charBuf, odoData, data
      ensures Valid()
      ensures State() == FeedAll(old(State()), old(data[..len]), scan, ax, ay)
      ensures forall k :: 0 <= k < len ==> data[k] == 0
      ensures data[len..] == old(data[len..])
    {
      ghost var input := data[..len];
      ghost var start := State();
      var i: U8 := 0;
      while i < len
        invariant i <= len
        invariant data[..] == old(data[..])
        invariant Fits(recvLen, input[i..])
        invariant FeedAll(State(), input[i..], scan, ax, ay) == FeedAll(start, input, scan, ax, ay)
      {
        ghost var before := State();
        assert input[i..][0] == data[i] && input[i..][1..] == input[i + 1..];
        if data[i] == Newline {
          EndLine(scan, ax, ay);
        } else {
          charBuf[recvLen] := data[i];
          recvLen := recvLen + 1;
          assert State() == Feed(before, input[i], scan, ax, ay);
        }
        i := i + 1;
      }
      forall k | 0 <= k < len {
        data[k] := 0;
      }
    }
  }
}
