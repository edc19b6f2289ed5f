/**
 * The decision logic of the per-node agent server (agent/agent_server.go):
 * the ledger values a new server starts with, the removal of stale shard
 * files on a clean restart, and how one incoming request is classified and
 * dispatched. Sockets, files and the protobuf codec are replaced by values:
 * the storage directory is an object whose entries the purge removes, the
 * directory listing and the offset read from the connection are inputs, and
 * the control-message codec and command handler are functions.
 */
module Agent {
  import opened Wrappers

  newtype byte = x: int | 0 <= x < 256
  newtype uint64 = x: int | 0 <= x < 0x1_0000_0000_0000_0000

  type Bytes = seq<byte>

  const TwoTo63: int := 0x8000_0000_0000_0000
  const TwoTo64: int := 0x1_0000_0000_0000_0000

  // ---------------------------------------------------------------------
  // Resources and options

  /** A compute capacity: total for a node, or the part currently allocated. */
  datatype ComputeResource = ComputeResource(cpuCount: int, cpuLevel: int, memoryMB: int)

  /** Allocated is within total in every dimension. */
  predicate WithinCapacity(used: ComputeResource, total: ComputeResource)
  {
    && 0 <= used.cpuCount <= total.cpuCount
    && 0 <= used.cpuLevel <= total.cpuLevel
    && 0 <= used.memoryMB <= total.memoryMB
  }

  /** The startup options of an agent server that this model reads. */
  datatype AgentServerOption = AgentServerOption(
    master: string,
    host: string,
    port: int,
    dir: string,
    dataCenter: string,
    rack: string,
    maxExecutor: int,
    memoryMB: int,
    cpuLevel: int,
    cleanRestart: bool,
    providedResources: string)

  // ---------------------------------------------------------------------
  // Decimal rendering of the port

  function DigitChar(d: nat): (c: char)
    requires d < 10
    ensures '0' <= c <= '9' && c as int - '0' as int == d
  {
    (48 + d) as char
  }

  /** The decimal digits of `n`, most significant first, without leading zeros. */
  function Digits(n: nat): (s: string)
    ensures |s| >= 1
    ensures forall i :: 0 <= i < |s| ==> '0' <= s[i] <= '9'
    ensures s[0] == '0' <==> n == 0
    ensures n < 10 ==> |s| == 1
  {
    if n < 10 then [DigitChar(n)] else Digits(n / 10) + [DigitChar(n % 10)]
  }

  /** The value of a string of decimal digits. */
  function ParseDigits(s: string): nat
    requires forall i :: 0 <= i < |s| ==> '0' <= s[i] <= '9'
  {
    if s == [] then 0 else ParseDigits(s[..|s| - 1]) * 10 + (s[|s| - 1] as int - '0' as int)
  }

  /** Reading back the digits of `n` gives `n`. */
  lemma {:induction false} DigitsRoundTrip(n: nat)
    ensures ParseDigits(Digits(n)) == n
  {
    if n >= 10 {
      DigitsRoundTrip(n / 10);
      var s := Digits(n);
      assert s[..|s| - 1] == Digits(n / 10);
    }
  }

  /** `n` in decimal, with a leading minus sign when negative. */
  function DecimalString(n: int): string
  {
    if n < 0 then "-" + Digits(-n) else Digits(n)
  }

  // ---------------------------------------------------------------------
  // Prefixes and suffixes

  predicate HasPrefix<T(==)>(s: seq<T>, prefix: seq<T>)
  {
    |prefix| <= |s| && s[..|prefix|] == prefix
  }

  predicate HasSuffix<T(==)>(s: seq<T>, suffix: seq<T>)
  {
    |suffix| <= |s| && s[|s| - |suffix|..] == suffix
  }

  /** HasSuffix holds exactly when `s` is something followed by `suffix`. */
  lemma HasSuffixIff<T>(s: seq<T>, suffix: seq<T>)
    ensures HasSuffix(s, suffix) <==> exists front :: s == front + suffix
  {
    if HasSuffix(s, suffix) {
      assert s == s[..|s| - |suffix|] + suffix;
    }
    if exists front :: s == front + suffix {
      var front :| s == front + suffix;
      assert s[|s| - |suffix|..] == suffix;
    }
  }

  // ---------------------------------------------------------------------
  // The storage directory and the clean-restart purge

  /** One entry of a directory listing. */
  datatype FileInfo = FileInfo(name: string, isDir: bool)

  /** The file-name suffix of the shards this agent's port owns: "-<port>.dat". */
  function StaleSuffix(port: int): string
  {
    "-" + DecimalString(port) + ".dat"
  }

  /** Whether a directory entry is a shard file of `port`, to be purged. */
  predicate IsStale(name: string, isDir: bool, port: int)
  {
    !isDir && HasSuffix(name, StaleSuffix(port))
  }

  /** The names in `listing` that the purge removes. */
  function StaleNames(listing: seq<FileInfo>, port: int): (names: set<string>)
    ensures forall name :: name in names <==>
      exists i :: 0 <= i < |listing| && listing[i].name == name && IsStale(name, listing[i].isDir, port)
  {
    if listing == [] then {}
    else
      var init, last := listing[..|listing| - 1], listing[|listing| - 1];
      assert forall i :: 0 <= i < |init| ==> init[i] == listing[i];
      StaleNames(init, port) + (if IsStale(last.name, last.isDir, port) then {last.name} else {})
  }

  /**
   * The directory after start-up: with the clean-restart option set and a
   * successful listing, the listed stale names are gone; otherwise nothing is.
   */
  function AfterInit(entries: map<string, bool>, cleanRestart: bool, listing: Option<seq<FileInfo>>, port: int)
    : map<string, bool>
  {
    if cleanRestart && listing.Some? then entries - StaleNames(listing.value, port) else entries
  }

  /** Extending the processed prefix of a listing by one entry adds that entry's name if it is stale. */
  lemma StaleNamesExtend(listing: seq<FileInfo>, i: nat, port: int)
    requires i < |listing|
    ensures StaleNames(listing[..i + 1], port)
         == StaleNames(listing[..i], port)
            + (if IsStale(listing[i].name, listing[i].isDir, port) then {listing[i].name} else {})
  {
    assert listing[..i + 1][..i] == listing[..i];
  }

  /** `listing` is a faithful listing of a directory whose entries map each name to "is a directory". */
  predicate Lists(listing: seq<FileInfo>, entries: map<string, bool>)
  {
    && (forall i :: 0 <= i < |listing| ==> listing[i].name in entries && entries[listing[i].name] == listing[i].isDir)
    && (forall name :: name in entries ==> exists i :: 0 <= i < |listing| && listing[i].name == name)
  }

  /** A directory on disk: each entry's name and whether it is itself a directory. */
  class ShardDirectory {
    var entries: map<string, bool>

    constructor (entries: map<string, bool>)
      ensures this.entries == entries
    {
      this.entries := entries;
    }

    /** Removes the entry called `name`, if there is one. */
    method Remove(name: string)
      modifies this
      ensures entries == old(entries) - {name}
    {
      entries := entries - {name};
    }
  }

  /** The agent server's own state. */
  class AgentServer {
    var option: AgentServerOption
    var master: string
    var computeResource: ComputeResource
    var allocatedResource: ComputeResource
    var storageDir: string
    var storagePort: int

    /**
     * A new server: total capacity from the options, nothing allocated, and
     * the start-up purge of `store` done (`listing` is what reading the
     * storage directory returned, None when that failed).
     */
    constructor (option: AgentServerOption, store: ShardDirectory, listing: Option<seq<FileInfo>>)
      modifies store
      ensures this.option == option && master == option.master
      ensures storageDir == option.dir && storagePort == option.port
      ensures computeResource == ComputeResource(option.maxExecutor, option.cpuLevel, option.memoryMB)
      ensures allocatedResource == ComputeResource(0, 0, 0)
      ensures option.maxExecutor >= 0 && option.cpuLevel >= 0 && option.memoryMB >= 0
              ==> WithinCapacity(allocatedResource, computeResource)
      ensures store.entries == AfterInit(old(store.entries), option.cleanRestart, listing, option.port)
    {
      this.option := option;
      master := option.master;
      storageDir, storagePort := option.dir, option.port;
      computeResource := ComputeResource(option.maxExecutor, option.cpuLevel, option.memoryMB);
      allocatedResource := ComputeResource(0, 0, 0);
      new;
      Init(store, listing);
    }

    /** With the clean-restart option, removes the listed stale shard files of this port. */
    method Init(store: ShardDirectory, listing: Option<seq<FileInfo>>)
      modifies store
      ensures store.entries == AfterInit(old(store.entries), option.cleanRestart, listing, option.port)
    {
      if option.cleanRestart {
        if listing.Some? {
          var fileInfos := listing.value;
          var suffix := StaleSuffix(option.port);
          for i := 0 to |fileInfos|
            invariant store.entries == old(store.entries) - StaleNames(fileInfos[..i], option.port)
          {
            var fi := fileInfos[i];
            StaleNamesExtend(fileInfos, i, option.port);
            if !fi.isDir && HasSuffix(fi.name, suffix) {
              store.Remove(fi.name);
            }
          }
          assert fileInfos[..|fileInfos|] == fileInfos;
        }
      }
    }
  }

  /**
   * On a faithful listing, the clean-restart purge keeps exactly the entries
   * that are directories or do not end in "-<port>.dat", and leaves them as
   * they were.
   */
  lemma PurgeRemovesExactly(entries: map<string, bool>, listing: seq<FileInfo>, port: int)
    requires Lists(listing, entries)
    ensures forall name ::
              name in AfterInit(entries, true, Some(listing), port)
              <==> name in entries && !IsStale(name, entries[name], port)
    ensures forall name ::
              name in AfterInit(entries, true, Some(listing), port)
              ==> AfterInit(entries, true, Some(listing), port)[name] == entries[name]
  {
    var after := AfterInit(entries, true, Some(listing), port);
    forall name
      ensures name in after <==> name in entries && !IsStale(name, entries[name], port)
    {
      if name in entries {
        var i :| 0 <= i < |listing| && listing[i].name == name;
        assert entries[name] == listing[i].isDir;
      }
    }
  }

  /** Without the clean-restart option, or when the listing failed, nothing is removed. */
  lemma NoPurgeWithoutCleanRestart(entries: map<string, bool>, cleanRestart: bool, listing: Option<seq<FileInfo>>, port: int)
    requires !cleanRestart || listing.None?
    ensures AfterInit(entries, cleanRestart, listing, port) == entries
  {
  }

  /** The suffix of port 9000's shard files. */
  lemma StaleSuffix9000()
    ensures StaleSuffix(9000) == "-9000.dat"
  {
    assert Digits(9) == "9";
    assert Digits(90) == "90";
    assert Digits(900) == "900";
    assert Digits(9000) == "9000";
  }

  /** Port 9000 purges its own shard files and leaves those of port 9001. */
  lemma PurgeExample()
    ensures var entries := map["x-9000.dat" := false, "y-9000.dat" := false, "z-9001.dat" := false];
            var listing := [FileInfo("x-9000.dat", false), FileInfo("y-9000.dat", false), FileInfo("z-9001.dat", false)];
            AfterInit(entries, true, Some(listing), 9000) == map["z-9001.dat" := false]
  {
    StaleSuffix9000();
    var listing := [FileInfo("x-9000.dat", false), FileInfo("y-9000.dat", false), FileInfo("z-9001.dat", false)];
    assert IsStale("x-9000.dat", false, 9000) by {
      assert "x-9000.dat"[1..] == "-9000.dat";
    }
    assert IsStale("y-9000.dat", false, 9000) by {
      assert "y-9000.dat"[1..] == "-9000.dat";
    }
    assert !IsStale("z-9001.dat", false, 9000) by {
      assert "z-9001.dat"[1..][4] != "-9000.dat"[4];
    }
    assert listing[..2] == listing[..2][..2] == [FileInfo("x-9000.dat", false), FileInfo("y-9000.dat", false)];
    assert listing[..2][..1] == [FileInfo("x-9000.dat", false)];
    assert StaleNames(listing[..2][..1], 9000) == {"x-9000.dat"};
    assert StaleNames(listing[..2], 9000) == {"x-9000.dat", "y-9000.dat"};
    assert StaleNames(listing, 9000) == {"x-9000.dat", "y-9000.dat"};
  }

  // ---------------------------------------------------------------------
  // Request classification

  /** "PUT ", "GET " and "CMD " in ASCII. */
  const PutPrefix: Bytes := [0x50, 0x55, 0x54, 0x20]
  const GetPrefix: Bytes := [0x47, 0x45, 0x54, 0x20]
  const CmdPrefix: Bytes := [0x43, 0x4D, 0x44, 0x20]

  /** What a request payload asks for, and its argument: the payload after its 4-byte prefix. */
  datatype RequestKind = Put(name: Bytes) | Get(name: Bytes) | Cmd(body: Bytes) | Unrecognised

  function Classify(payload: Bytes): RequestKind
  {
    if HasPrefix(payload, PutPrefix) then Put(payload[4..])
    else if HasPrefix(payload, GetPrefix) then Get(payload[4..])
    else if HasPrefix(payload, CmdPrefix) then Cmd(payload[4..])
    else Unrecognised
  }

  /** The payload a client sends for a request: its prefix followed by its argument. */
  function Encode(k: RequestKind): (payload: Bytes)
    requires !k.Unrecognised?
    ensures |payload| == 4 + |if k.Cmd? then k.body else k.name|
  {
    match k
    case Put(name) => PutPrefix + name
    case Get(name) => GetPrefix + name
    case Cmd(body) => CmdPrefix + body
  }

  /** No payload carries two of the three prefixes, so at most one handler applies. */
  lemma PrefixesExclusive(payload: Bytes)
    ensures !(HasPrefix(payload, PutPrefix) && HasPrefix(payload, GetPrefix))
    ensures !(HasPrefix(payload, PutPrefix) && HasPrefix(payload, CmdPrefix))
    ensures !(HasPrefix(payload, GetPrefix) && HasPrefix(payload, CmdPrefix))
  {
    if HasPrefix(payload, PutPrefix) {
      assert payload[0] == PutPrefix[0];
    }
    if HasPrefix(payload, GetPrefix) {
      assert payload[0] == GetPrefix[0];
    }
  }

  /** A payload is unrecognised exactly when it has none of the three prefixes. */
  lemma UnrecognisedIffNoPrefix(payload: Bytes)
    ensures Classify(payload).Unrecognised? <==>
      !HasPrefix(payload, PutPrefix) && !HasPrefix(payload, GetPrefix) && !HasPrefix(payload, CmdPrefix)
  {
  }

  /** Classifying an encoded request gives the request back. */
  lemma ClassifyEncode(k: RequestKind)
    requires !k.Unrecognised?
    ensures Classify(Encode(k)) == k
  {
    var p := Encode(k);
    match k
    case Put(name) =>
      assert p[..4] == PutPrefix && p[4..] == name;
    case Get(name) =>
      assert p[..4] == GetPrefix && p[4..] == name;
      PrefixesExclusive(p);
    case Cmd(body) =>
      assert p[..4] == CmdPrefix && p[4..] == body;
      PrefixesExclusive(p);
  }

  /** Encoding a recognised payload's classification gives the payload back. */
  lemma EncodeClassify(payload: Bytes)
    requires !Classify(payload).Unrecognised?
    ensures Encode(Classify(payload)) == payload
  {
    assert payload == payload[..4] + payload[4..];
  }

  // ---------------------------------------------------------------------
  // Request dispatch

  /** The connection: plain, or TLS with or without a completed handshake. */
  datatype Transport = Plain | Tls(handshakeComplete: bool)

  /** The flag byte of a frame: a data frame, or one of the other kinds. */
  datatype Flag = Data | OtherFlag(code: byte)

  /** The frame read from the connection, and whether reading it reported an error. */
  datatype Frame = Frame(flag: Flag, payload: Bytes, readFailed: bool)

  /**
   * What handling a request consults beyond the frame: the 8-byte offset that
   * follows a GET on the connection, the control-message decoder, the command
   * handler (None for a nil reply) and the reply encoder (None on failure).
   */
  datatype Handlers<!M, !R> = Handlers(
    nextOffset: uint64,
    unmarshal: Bytes -> Option<M>,
    handleCommand: M -> Option<R>,
    marshal: R -> Option<Bytes>)

  /** What follows a command: no reply, the encoded reply written back, or a fatal encode error. */
  datatype Reply = NoReply | Written(data: Bytes) | MarshalFatal

  /** Which handler runs, with what arguments. */
  datatype Action<M> =
    | LocalWrite(name: Bytes)
    | LocalRead(name: Bytes, offset: int)
    | Command(msg: M, reply: Reply)
    | UnmarshalFatal
    | NoAction

  /** How handling a request ends. */
  datatype Outcome<M> =
    | HandshakeFailed
    | UnexpectedFlag
    | Dispatched(readErrorLogged: bool, action: Action<M>)

  /** The unsigned offset reinterpreted as a signed 64-bit integer, as int64(offset) does. */
  function Int64(u: uint64): (v: int)
    ensures -TwoTo63 <= v < TwoTo63
    ensures (v - u as int) % TwoTo64 == 0
  {
    if (u as int) < TwoTo63 then u as int else u as int - TwoTo64
  }

  function ReplyTo<M, R>(h: Handlers<M, R>, msg: M): Reply
  {
    match h.handleCommand(msg)
    case None => NoReply
    case Some(reply) =>
      match h.marshal(reply)
      case None => MarshalFatal
      case Some(data) => Written(data)
  }

  function Dispatch<M, R>(payload: Bytes, h: Handlers<M, R>): Action<M>
  {
    match Classify(payload)
    case Put(name) => LocalWrite(name)
    case Get(name) => LocalRead(name, Int64(h.nextOffset))
    case Cmd(body) =>
      (match h.unmarshal(body)
       case None => UnmarshalFatal
       case Some(msg) => Command(msg, ReplyTo(h, msg)))
    case Unrecognised => NoAction
  }

  predicate HandshakeOk(transport: Transport)
  {
    transport.Tls? ==> transport.handshakeComplete
  }

  /** Handling of one request on a connection. */
  function HandleRequest<M, R>(transport: Transport, frame: Frame, h: Handlers<M, R>): (o: Outcome<M>)
    ensures !HandshakeOk(transport) ==> o == HandshakeFailed
    ensures o.Dispatched? <==> HandshakeOk(transport) && frame.flag == Data
    ensures o.Dispatched? ==> o.readErrorLogged == frame.readFailed
  {
    if transport.Tls? && !transport.handshakeComplete then HandshakeFailed
    else if frame.flag != Data then UnexpectedFlag
    else Dispatched(frame.readFailed, Dispatch(frame.payload, h))
  }

  /**
   * A data frame on a usable connection goes to the handler its prefix names,
   * with the payload after the prefix as argument.
   */
  lemma DispatchByPrefix<M, R>(transport: Transport, frame: Frame, h: Handlers<M, R>)
    requires HandshakeOk(transport) && frame.flag == Data
    ensures var o := HandleRequest(transport, frame, h);
            var p := frame.payload;
            && (HasPrefix(p, PutPrefix) ==> o.action == LocalWrite(p[4..]))
            && (HasPrefix(p, GetPrefix) ==> o.action == LocalRead(p[4..], Int64(h.nextOffset)))
            && (HasPrefix(p, CmdPrefix) && h.unmarshal(p[4..]).Some? ==>
                  o.action == Command(h.unmarshal(p[4..]).value, ReplyTo(h, h.unmarshal(p[4..]).value)))
            && (HasPrefix(p, CmdPrefix) && h.unmarshal(p[4..]).None? ==> o.action == UnmarshalFatal)
  {
    PrefixesExclusive(frame.payload);
  }

  /** A payload with none of the three prefixes runs no handler and writes nothing. */
  lemma UnrecognisedDoesNothing<M, R>(transport: Transport, frame: Frame, h: Handlers<M, R>)
    requires HandshakeOk(transport) && frame.flag == Data
    requires !HasPrefix(frame.payload, PutPrefix) && !HasPrefix(frame.payload, GetPrefix)
    requires !HasPrefix(frame.payload, CmdPrefix)
    ensures HandleRequest(transport, frame, h) == Dispatched(frame.readFailed, NoAction)
  {
    UnrecognisedIffNoPrefix(frame.payload);
  }

  /** A read error on a data frame is only logged: the same handler runs either way. */
  lemma ReadErrorOnlyLogged<M, R>(transport: Transport, frame: Frame, h: Handlers<M, R>)
    requires HandshakeOk(transport) && frame.flag == Data
    ensures HandleRequest(transport, frame, h).action
         == HandleRequest(transport, frame.(readFailed := !frame.readFailed), h).action
  {
  }

  /** A reply is written only when the command handler returned one and it encoded. */
  lemma ReplyOnlyWhenHandlerReplies<M, R>(transport: Transport, frame: Frame, h: Handlers<M, R>)
    ensures var o := HandleRequest(transport, frame, h);
            o.Dispatched? && o.action.Command? && o.action.reply.Written? ==>
              && h.handleCommand(o.action.msg).Some?
              && h.marshal(h.handleCommand(o.action.msg).value) == Some(o.action.reply.data)
    ensures var o := HandleRequest(transport, frame, h);
            o.Dispatched? && o.action.Command? && h.handleCommand(o.action.msg).None? ==>
              o.action.reply == NoReply
  {
  }
}
