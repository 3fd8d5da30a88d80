/** Requests between nodes: how a client builds one (lib/nodeclient/nodeclient.go,
    lib/net/network.go) and how a server reads it from a connection that delivers it in
    pieces (node/server/server.go). */
module Wire {
  import opened Structures
  import opened Tree

  const COMMAND_LENGTH := 12
  const MAX_PAUSES := 30

  // ----- commands and lengths

  /** Strings that the fixed field can hold and give back: at most twelve characters of one
      byte, none of them zero. */
  predicate Sendable(s: Bytes) {
    |s| <= COMMAND_LENGTH && forall i | 0 <= i < |s| :: s[i] != 0 && s[i] < 128
  }

  method CommandToBytes(command: Bytes) returns (bytes: Bytes)
    requires |command| <= COMMAND_LENGTH
    ensures bytes == command + Zeros(COMMAND_LENGTH - |command|)
  {
    var buf := new byte[COMMAND_LENGTH](_ => 0);
    for i := 0 to |command|
      invariant forall k | 0 <= k < COMMAND_LENGTH :: buf[k] == if k < i then command[k] else 0
    {
      buf[i] := command[i];
    }
    bytes := buf[..];
  }

  /** The bytes that are not zero. */
  function Stripped(bytes: Bytes): Bytes {
    if bytes == [] then [] else
      Stripped(bytes[..|bytes| - 1]) + (if bytes[|bytes| - 1] != 0 then [bytes[|bytes| - 1]] else [])
  }

  method BytesToCommand(bytes: Bytes) returns (command: Bytes)
    ensures command == Stripped(bytes)
  {
    command := [];
    for i := 0 to |bytes|
      invariant command == Stripped(bytes[..i])
    {
      assert bytes[..i + 1][..i] == bytes[..i];
      if bytes[i] != 0 {
        command := command + [bytes[i]];
      }
    }
    assert bytes[..|bytes|] == bytes;
  }

  lemma {:induction false} StripZeros(s: Bytes, n: nat)
    requires forall i | 0 <= i < |s| :: s[i] != 0
    ensures Stripped(s + Zeros(n)) == s
  {
    if n > 0 {
      StripZeros(s, n - 1);
      assert (s + Zeros(n))[..|s| + n - 1] == s + Zeros(n - 1);
    } else if s != [] {
      var before := s[..|s| - 1];
      StripZeros(before, 0);
      assert before + Zeros(0) == before && s + Zeros(0) == s;
    } else {
      assert s + Zeros(0) == [];
    }
  }

  /** The field that holds a command or an auth string gives it back. */
  lemma {:induction false} CommandRoundTrip(s: Bytes)
    requires Sendable(s)
    ensures Stripped(s + Zeros(COMMAND_LENGTH - |s|)) == s
  {
    StripZeros(s, COMMAND_LENGTH - |s|);
  }

  const WIDTH32: nat := 0x1_0000_0000

  /** uint32 conversion followed by PutUint32 in little-endian order. */
  function Length32(len: nat): (r: Bytes)
    ensures |r| == 4
  {
    var n := len % WIDTH32;
    [(n % 256) as byte, (n / 256 % 256) as byte, (n / 65536 % 256) as byte, (n / 16777216) as byte]
  }

  function Read32(b: Bytes): (n: nat)
    requires |b| == 4
    ensures n < WIDTH32
  {
    b[0] as int + 256 * b[1] as int + 65536 * b[2] as int + 16777216 * b[3] as int
  }

  lemma LengthRoundTrip(len: nat)
    ensures Read32(Length32(len)) == len % WIDTH32
  {
    var n := len % WIDTH32;
    var q := n / 256;
    var r := q / 256;
    assert n / 65536 == r && n / 16777216 == r / 256;
    assert n == 256 * q + n % 256 && q == 256 * r + q % 256 && r == 256 * (r / 256) + r % 256;
  }

  // ----- building a request

  /** Command, length of the payload, length of the rest, payload, rest. */
  function Frame(command: Bytes, payload: Bytes, extra: Bytes): Bytes
    requires |command| <= COMMAND_LENGTH
  {
    command + Zeros(COMMAND_LENGTH - |command|) + Length32(|payload|) + Length32(|extra|) + payload + extra
  }

  /** The layout of a request, byte by byte: the command in twelve bytes, filled up with zeros,
      each length in four with the lowest byte first, then payload and extra data. */
  lemma FrameLayout(c: Bytes, p: Bytes, e: Bytes)
    requires |c| <= 12
    ensures var f := Frame(c, p, e);
            && |f| == 20 + |p| + |e| && f[..|c|] == c && (forall i | |c| <= i < 12 :: f[i] == 0)
            && f[12] as int + 256 * f[13] as int + 65536 * f[14] as int + 16777216 * f[15] as int
               == |p| % 4294967296
            && f[16] as int + 256 * f[17] as int + 65536 * f[18] as int + 16777216 * f[19] as int
               == |e| % 4294967296
            && f[20..20 + |p|] == p && f[20 + |p|..] == e
  {
    LengthRoundTrip(|p|);
    LengthRoundTrip(|e|);
    var head := c + Zeros(COMMAND_LENGTH - |c|);
    var lengths := Length32(|p|) + Length32(|e|);
    assert Frame(c, p, e) == head + (lengths + (p + e));
    assert Frame(c, p, e) == (head + lengths) + (p + e);
    assert lengths[0..4] == Length32(|p|) && lengths[4..8] == Length32(|e|);
    forall i | 0 <= i < 8
      ensures Frame(c, p, e)[12 + i] == lengths[i]
    {
    }
  }

  /** doBuildCommandData: the payload is the encoded data, or empty when there is none. */
  method DoBuildCommandData(command: Bytes, payload: Bytes, extra: Bytes) returns (request: Bytes)
    requires |command| <= COMMAND_LENGTH
    ensures request == Frame(command, payload, extra)
  {
    request := CommandToBytes(command);
    request := request + Length32(|payload|);
    request := request + Length32(|extra|);
    request := request + payload;
    if |extra| > 0 {
      request := request + extra;
    }
  }

  /** The extra data that carries an auth string. */
  function AuthField(authStr: Bytes): Bytes
    requires |authStr| <= COMMAND_LENGTH
  {
    authStr + Zeros(COMMAND_LENGTH - |authStr|)
  }

  method BuildCommandDataWithAuth(command: Bytes, payload: Bytes, authStr: Bytes) returns (request: Bytes)
    requires |command| <= COMMAND_LENGTH && |authStr| <= COMMAND_LENGTH
    ensures request == Frame(command, payload, AuthField(authStr))
  {
    var authbytes := CommandToBytes(authStr);
    request := DoBuildCommandData(command, payload, authbytes);
  }

  // ----- a connection

  /** A connection delivers its bytes in pieces: the t-th read yields at most `pieces(t)`
      bytes, none when that is 0, and the end of the stream once all were read. */
  class Connection {
    var data: Bytes
    var clock: nat
    const pieces: nat -> nat

    constructor (data: Bytes, pieces: nat -> nat)
      ensures this.data == data && clock == 0 && this.pieces == pieces
    {
      this.data, clock, this.pieces := data, 0, pieces;
    }

    method Read(max: nat) returns (read: Bytes, eof: bool)
      modifies `data, `clock
      ensures clock == old(clock) + 1
      ensures old(data) == read + data && |read| <= max
      ensures eof <==> old(data) == []
      ensures read == [] <==> old(data) == [] || max == 0 || pieces(old(clock)) == 0
    {
      var n := if pieces(clock) < max then pieces(clock) else max;
      if n > |data| {
        n := |data|;
      }
      eof := data == [];
      read, data := data[..n], data[n..];
      clock := clock + 1;
    }
  }

  /** 32 reads without a byte, one after the other. */
  ghost predicate LongPause(pieces: nat -> nat, t: nat) {
    forall k: nat | t <= k < t + 32 :: pieces(k) == 0
  }

  ghost predicate NeverLongPause(pieces: nat -> nat) {
    forall t :: !LongPause(pieces, t)
  }

  /** The reads from t on, n of them, gave nothing. */
  ghost predicate Silent(pieces: nat -> nat, t: nat, n: nat) {
    n <= t && forall k: nat | t - n <= k < t :: pieces(k) == 0
  }

  /** A pause that is too long falls between two readings of the clock. */
  ghost predicate PausedWithin(pieces: nat -> nat, from: nat, until: nat) {
    exists t :: from <= t && t + MAX_PAUSES + 2 <= until && LongPause(pieces, t)
  }

  /** The last `pauses` reads since `from` were silent, and the one before them was not. */
  ghost predicate Counted(pieces: nat -> nat, from: nat, clock: nat, pauses: nat) {
    && from + pauses <= clock && pauses <= MAX_PAUSES + 1
    && Silent(pieces, clock, pauses)
    && (from + pauses < clock ==> pieces(clock - pauses - 1) > 0)
    && !PausedWithin(pieces, from, clock)
  }

  lemma CountByte(pieces: nat -> nat, from: nat, clock: nat, pauses: nat)
    requires Counted(pieces, from, clock, pauses) && pieces(clock) > 0
    ensures Counted(pieces, from, clock + 1, 0)
  {
    NoNewPause(pieces, from, clock, clock);
  }

  lemma CountPause(pieces: nat -> nat, from: nat, clock: nat, pauses: nat)
    requires Counted(pieces, from, clock, pauses) && pieces(clock) == 0
    ensures pauses <= MAX_PAUSES ==> Counted(pieces, from, clock + 1, pauses + 1)
    ensures pauses > MAX_PAUSES ==> PausedWithin(pieces, from, clock + 1)
  {
    if pauses > MAX_PAUSES {
      assert LongPause(pieces, clock - pauses);
    } else if from + pauses < clock {
      NoNewPause(pieces, from, clock, clock - pauses - 1);
    }
  }

  /** A recent read with a byte rules out that a long pause ends now. */
  lemma NoNewPause(pieces: nat -> nat, from: nat, clock: nat, k: nat)
    requires !PausedWithin(pieces, from, clock)
    requires k <= clock < k + MAX_PAUSES + 2 && pieces(k) > 0
    ensures !PausedWithin(pieces, from, clock + 1)
  {
    forall t: nat | from <= t && t + MAX_PAUSES + 2 <= clock + 1
      ensures !LongPause(pieces, t)
    {
      if t + MAX_PAUSES + 2 == clock + 1 {
        assert t <= k < t + MAX_PAUSES + 2 && pieces(k) != 0;
      }
    }
  }

  /** readFromConnection: gives exactly the next bytes, however they are cut, or fails
      because there are too few or because 32 reads in a row gave nothing. */
  method ReadFromConnection(conn: Connection, countofbytes: nat) returns (buff: Bytes, err: bool)
    requires countofbytes > 0
    modifies conn
    ensures conn.clock >= old(conn.clock)
    ensures !err ==> buff + conn.data == old(conn.data) && |buff| == countofbytes
    ensures !err ==> !PausedWithin(conn.pieces, old(conn.clock), conn.clock)
    ensures err ==> |old(conn.data)| < countofbytes || PausedWithin(conn.pieces, old(conn.clock), conn.clock)
  {
    buff := [];
    var pauses: nat := 0;
    while true
      invariant buff + conn.data == old(conn.data) && |buff| < countofbytes
      invariant Counted(conn.pieces, old(conn.clock), conn.clock, pauses)
      decreases countofbytes - |buff|, MAX_PAUSES + 1 - pauses
    {
      ghost var t, before := conn.clock, buff;
      var read, eof := conn.Read(countofbytes - |buff|);
      buff := buff + read;
      assert buff + conn.data == before + (read + conn.data);
      if |read| > 0 {
        CountByte(conn.pieces, old(conn.clock), t, pauses);
        if |buff| == countofbytes {
          break;
        }
        pauses := 0;
      }
      if eof {
        break;
      }
      if |read| == 0 {
        CountPause(conn.pieces, old(conn.clock), t, pauses);
        if pauses > MAX_PAUSES {
          break;
        }
        pauses := pauses + 1;
      }
    }
    err := |buff| < countofbytes;
  }

  // ----- reading a request

  lemma TakeFront(a: Bytes, x: Bytes, b: Bytes, y: Bytes)
    requires a + x == b + y && |a| == |b|
    ensures a == b && x == y
  {
    assert (a + x)[..|a|] == a && (b + y)[..|b|] == b;
    assert (a + x)[|a|..] == x && (b + y)[|b|..] == y;
  }

  /** Reads one field of the expected bytes: whatever comes next on the connection. */
  method ReadField(conn: Connection, count: nat, ghost field: Bytes, ghost rest: Bytes)
    returns (buff: Bytes, err: bool)
    requires count > 0
    modifies conn
    ensures conn.clock >= old(conn.clock)
    ensures !err ==> buff + conn.data == old(conn.data) && |buff| == count
    ensures old(conn.data) == field + rest && |field| == count && NeverLongPause(conn.pieces) ==>
              !err && buff == field && conn.data == rest
  {
    ghost var d := conn.data;
    buff, err := ReadFromConnection(conn, count);
    if d == field + rest && |field| == count && NeverLongPause(conn.pieces) {
      TakeFront(buff, conn.data, field, rest);
    }
  }

  ghost predicate Holds(conn: Connection, expected: Bytes)
    reads conn`data
  {
    conn.data == expected && NeverLongPause(conn.pieces)
  }

  /** The command and both lengths. */
  method ReadHeader(conn: Connection, ghost field: Bytes, ghost l1: Bytes, ghost l2: Bytes, ghost body: Bytes)
    returns (command: Bytes, datalength: nat, extradatalength: nat, err: bool)
    requires |field| == COMMAND_LENGTH && |l1| == 4 && |l2| == 4
    modifies conn
    ensures old(Holds(conn, field + (l1 + (l2 + body)))) ==>
              !err && Holds(conn, body) && command == Stripped(field)
              && datalength == Read32(l1) && extradatalength == Read32(l2)
  {
    var commandbuffer, err1 := ReadField(conn, COMMAND_LENGTH, field, l1 + (l2 + body));
    if err1 {
      return [], 0, 0, true;
    }
    command := BytesToCommand(commandbuffer);
    var lengthbuffer, err2 := ReadField(conn, 4, l1, l2 + body);
    if err2 {
      return [], 0, 0, true;
    }
    datalength := Read32(lengthbuffer);
    lengthbuffer, err2 := ReadField(conn, 4, l2, body);
    if err2 {
      return [], 0, 0, true;
    }
    extradatalength := Read32(lengthbuffer);
    err := false;
  }

  /** A part whose length was announced; nothing is read for length 0. */
  method ReadPart(conn: Connection, length: nat, ghost part: Bytes, ghost rest: Bytes)
    returns (buff: Bytes, err: bool)
    modifies conn
    ensures old(Holds(conn, part + rest)) && length == |part| ==> !err && Holds(conn, rest) && buff == part
  {
    if length == 0 {
      assert [] + rest == rest;
      return [], false;
    }
    buff, err := ReadField(conn, length, part, rest);
  }

  lemma FrameParts(c: Bytes, p: Bytes, e: Bytes, rest: Bytes)
    requires |c| <= COMMAND_LENGTH
    ensures Frame(c, p, e) + rest
            == (c + Zeros(COMMAND_LENGTH - |c|)) + (Length32(|p|) + (Length32(|e|) + (p + (e + rest))))
  {
  }

  /** readRequest gives back what the client put into the frame, under every way of cutting
      the stream into pieces without too long a pause, and leaves what follows unread; of a
      request that BuildCommandDataWithAuth made, this includes the auth string. */
  method ReadRequest(conn: Connection, ghost c: Bytes, ghost p: Bytes, ghost e: Bytes, ghost rest: Bytes)
    returns (command: Bytes, payload: Bytes, authstr: Bytes, err: bool)
    requires |c| <= COMMAND_LENGTH
    modifies conn
    ensures old(Holds(conn, Frame(c, p, e) + rest)) && Sendable(c) && |p| < WIDTH32 && |e| < WIDTH32 ==>
              !err && command == c && payload == p && authstr == Stripped(e) && Holds(conn, rest)
    ensures old(Holds(conn, Frame(c, p, e) + rest)) && Sendable(c) && |p| < WIDTH32 ==>
              forall a {:trigger AuthField(a)} | Sendable(a) && e == AuthField(a) :: !err && authstr == a
  {
    forall a | Sendable(a)
      ensures Stripped(AuthField(a)) == a
    {
      CommandRoundTrip(a);
    }
    FrameParts(c, p, e, rest);
    if Sendable(c) {
      CommandRoundTrip(c);
    }
    LengthRoundTrip(|p|);
    LengthRoundTrip(|e|);
    var datalength, extradatalength;
    command, datalength, extradatalength, err :=
      ReadHeader(conn, c + Zeros(COMMAND_LENGTH - |c|), Length32(|p|), Length32(|e|), p + (e + rest));
    if err {
      return [], [], [], true;
    }
    payload, err := ReadPart(conn, datalength, p, e + rest);
    if err {
      return [], [], [], true;
    }
    var extra;
    extra, err := ReadPart(conn, extradatalength, e, rest);
    if err {
      return [], [], [], true;
    }
    authstr := BytesToCommand(extra);
  }
}
