/** The per-direction stream activation of a paramiko transport extended so that the
    "none" cipher and "none" MAC (sections 6.3 and 6.4 of RFC 4253) can be negotiated. */
module NoneCipher {
  import opened Wrappers
  import opened SeqUtil
  import opened SshMessage
  import opened Registry

  type Bytes = seq<bv8>

  /** The packetizer's sequence counters are 32 bits wide. */
  newtype uint32 = x: int | 0 <= x < 0x1_0000_0000

  /** The counter after one more packet: `(n + 1) & 0xffffffff`. */
  function NextSeqno(n: uint32): uint32 {
    ((n as int + 1) % 0x1_0000_0000) as uint32
  }

  // ---------------------------------------------------------------------------
  // Key derivation letters

  /** The six key-derivation letters of section 7.2 of RFC 4253. */
  datatype Slot = A | B | C | D | E | F

  datatype Purpose = InitialIv | EncryptionKey | IntegrityKey

  datatype WireDirection = ClientToServer | ServerToClient

  /** Section 7.2 of RFC 4253: the letter that derives each key of each wire direction. */
  function RfcSlot(p: Purpose, d: WireDirection): Slot {
    match p
    case InitialIv => if d == ClientToServer then A else B
    case EncryptionKey => if d == ClientToServer then C else D
    case IntegrityKey => if d == ClientToServer then E else F
  }

  /** A transport's two streams: what it reads and what it writes. */
  datatype Stream = Inbound | Outbound

  /** The wire direction a stream carries: a server reads, and a client writes, client-to-server. */
  function WireDirectionOf(s: Stream, serverMode: bool): WireDirection {
    if (s == Inbound) == serverMode then ClientToServer else ServerToClient
  }

  /** The (IV, key) letters the activation code asks `_compute_key` for. */
  function CipherSlots(s: Stream, serverMode: bool): (r: (Slot, Slot))
    ensures r.0 == RfcSlot(InitialIv, WireDirectionOf(s, serverMode))
    ensures r.1 == RfcSlot(EncryptionKey, WireDirectionOf(s, serverMode))
  {
    match s
    case Inbound => if serverMode then (A, C) else (B, D)
    case Outbound => if serverMode then (B, D) else (A, C)
  }

  /** The MAC-key letter the activation code asks `_compute_key` for. */
  function MacSlot(s: Stream, serverMode: bool): (r: Slot)
    ensures r == RfcSlot(IntegrityKey, WireDirectionOf(s, serverMode))
  {
    match s
    case Inbound => if serverMode then E else F
    case Outbound => if serverMode then F else E
  }

  /** What one peer writes with, the other reads with: the letters agree across roles. */
  lemma PeerSlotsAgree(serverMode: bool)
    ensures CipherSlots(Outbound, serverMode) == CipherSlots(Inbound, !serverMode)
    ensures MacSlot(Outbound, serverMode) == MacSlot(Inbound, !serverMode)
    ensures CipherSlots(Inbound, serverMode) != CipherSlots(Outbound, serverMode)
    ensures MacSlot(Inbound, serverMode) != MacSlot(Outbound, serverMode)
  {
  }

  // ---------------------------------------------------------------------------
  // Engines

  datatype Operation = Encrypt | Decrypt

  /** A cipher engine, known by the arguments paramiko's own `_get_engine` built it from. */
  datatype Engine = ParentEngine(name: string, key: Bytes, iv: Option<Bytes>, op: Option<Operation>, aead: bool)

  /** `_get_engine`: no engine for "none"; any other name goes to the parent unchanged. */
  function GetEngine(name: string, key: Bytes, iv: Option<Bytes>, op: Option<Operation>, aead: bool): (r: Option<Engine>)
    ensures r.None? <==> name == "none"
    ensures r.Some? ==> r.value == ParentEngine(name, key, iv, op, aead)
  {
    if name == "none" then None
    else Some(ParentEngine(name, key, iv, op, aead))
  }

  function OperationFor(s: Stream): Operation {
    if s == Inbound then Decrypt else Encrypt
  }

  // ---------------------------------------------------------------------------
  // Packetizer

  /** The arguments of `set_inbound_cipher` / `set_outbound_cipher`. `sdctr` is false for the
      inbound stream, whose setter takes no such argument. */
  datatype StreamCipher = StreamCipher(
    engine: Option<Engine>, blockSize: nat,
    macEngine: Option<HashAlg>, macSize: nat, macKey: Option<Bytes>,
    sdctr: bool, etm: bool, aead: bool, iv: Option<Bytes>)

  /** A fresh packetizer's stream: no engine, 8-byte blocks, no MAC. */
  const InitialStream := StreamCipher(None, 8, None, 0, None, false, false, false, None)

  /** The packetizer state the activation code reads and writes. */
  datatype Packetizer = Packetizer(
    inbound: StreamCipher, outbound: StreamCipher,
    compressorIn: Option<Codec>, compressorOut: Option<Codec>,
    seqnoIn: uint32, seqnoOut: uint32,
    needRekey: bool)

  const InitialPacketizer := Packetizer(InitialStream, InitialStream, None, None, 0, 0, false)

  /** Observable effects of activation, in the order they happen. A sent message records the
      sequence number and the outbound state it went out under; an installed compressor is a
      fresh instance of its class, so installing the class already in place is still an effect. */
  datatype Effect =
    | Sent(msg: Message, seqno: uint32, cipher: StreamCipher, compressor: Option<Codec>)
    | Expected(ptype: nat)
    | CompressorInstalled(stream: Stream, codec: Codec)
    | ParentActivatedInbound
    | ParentActivatedOutbound

  // ---------------------------------------------------------------------------
  // What one direction's activation installs

  /** The custom path is taken when the direction's cipher or MAC is "none". */
  predicate UsesNone(cipherName: string, macName: string) {
    cipherName == "none" || macName == "none"
  }

  /** IV length: the row's "iv-size", or the block size when the row has none. */
  function IvSize(info: CipherInfo): nat {
    info.ivSize.GetOr(info.blockSize)
  }

  datatype CipherSetup = CipherSetup(engine: Option<Engine>, iv: Option<Bytes>, sdctr: bool)

  function CipherSetupFor(s: Stream, serverMode: bool, name: string, info: CipherInfo,
                          kdf: (Slot, nat) -> Bytes): CipherSetup
  {
    if name == "none" then CipherSetup(None, None, false)
    else
      var (ivSlot, keySlot) := CipherSlots(s, serverMode);
      var iv := kdf(ivSlot, IvSize(info));
      var key := kdf(keySlot, info.keySize);
      CipherSetup(GetEngine(name, key, Some(iv), Some(OperationFor(s)), info.isAead), Some(iv),
                  s == Outbound && EndsWith(name, "-ctr"))
  }

  function CipherRequests(s: Stream, serverMode: bool, name: string, info: CipherInfo): seq<(Slot, nat)> {
    if name == "none" then []
    else
      var (ivSlot, keySlot) := CipherSlots(s, serverMode);
      [(ivSlot, IvSize(info)), (keySlot, info.keySize)]
  }

  /** A separate MAC is keyed unless the MAC is "none" or the cipher is AEAD. */
  predicate MacKeyed(macName: string, aead: bool) {
    macName != "none" && !aead
  }

  /** The lookups a keyed MAC makes succeed: the row exists and names a hash class. */
  predicate MacKnown(macName: string, aead: bool, macs: map<string, MacInfo>) {
    MacKeyed(macName, aead) ==> macName in macs && macs[macName].hash.Some?
  }

  datatype MacSetup = MacSetup(engine: Option<HashAlg>, size: nat, key: Option<Bytes>, etm: bool)

  function MacSetupFor(s: Stream, serverMode: bool, macName: string, aead: bool,
                       macs: map<string, MacInfo>, kdf: (Slot, nat) -> Bytes): MacSetup
    requires MacKnown(macName, aead, macs)
  {
    if MacKeyed(macName, aead) then
      var row := macs[macName];
      MacSetup(row.hash, row.size, Some(kdf(MacSlot(s, serverMode), row.hash.value.digestSize)),
               Contains(macName, "etm@openssh.com"))
    else MacSetup(None, if aead then 16 else 0, None, false)
  }

  function MacRequests(s: Stream, serverMode: bool, macName: string, aead: bool,
                       macs: map<string, MacInfo>): seq<(Slot, nat)>
    requires MacKnown(macName, aead, macs)
  {
    if MacKeyed(macName, aead) then [(MacSlot(s, serverMode), macs[macName].hash.value.digestSize)]
    else []
  }

  /** The table lookups of one direction's custom activation succeed. */
  predicate DirectionKnown(cipherName: string, macName: string,
                           ciphers: map<string, CipherInfo>, macs: map<string, MacInfo>) {
    cipherName in ciphers && MacKnown(macName, ciphers[cipherName].isAead, macs)
  }

  /** The stream state the custom path hands to the packetizer. */
  function StreamCipherFor(s: Stream, serverMode: bool, cipherName: string, macName: string,
                           ciphers: map<string, CipherInfo>, macs: map<string, MacInfo>,
                           kdf: (Slot, nat) -> Bytes): StreamCipher
    requires DirectionKnown(cipherName, macName, ciphers, macs)
  {
    var info := ciphers[cipherName];
    var c := CipherSetupFor(s, serverMode, cipherName, info, kdf);
    var m := MacSetupFor(s, serverMode, macName, info.isAead, macs, kdf);
    StreamCipher(c.engine, info.blockSize, m.engine, m.size, m.key, c.sdctr, m.etm, info.isAead,
                 if info.isAead then c.iv else None)
  }

  /** The `_compute_key` calls of the custom path, in call order. */
  function KeyRequests(s: Stream, serverMode: bool, cipherName: string, macName: string,
                       ciphers: map<string, CipherInfo>, macs: map<string, MacInfo>): seq<(Slot, nat)>
    requires DirectionKnown(cipherName, macName, ciphers, macs)
  {
    CipherRequests(s, serverMode, cipherName, ciphers[cipherName])
      + MacRequests(s, serverMode, macName, ciphers[cipherName].isAead, macs)
  }

  /** Compression is switched on when the table names a class for the direction, except
      OpenSSH's delayed "zlib@openssh.com" before authentication. */
  predicate SwitchesOnCompression(name: string, factory: Option<Codec>, authenticated: bool) {
    factory.Some? && (name != "zlib@openssh.com" || authenticated)
  }

  /** The compressor class in place after activation. */
  function CompressorAfter(name: string, factory: Option<Codec>, authenticated: bool,
                           current: Option<Codec>): Option<Codec>
  {
    if SwitchesOnCompression(name, factory, authenticated) then factory else current
  }

  /** The installation a switch-on performs, if any. */
  function CompressionEffects(s: Stream, name: string, factory: Option<Codec>, authenticated: bool): seq<Effect> {
    if SwitchesOnCompression(name, factory, authenticated) then [CompressorInstalled(s, factory.value)] else []
  }

  /** The EXT_INFO extensions, as `sorted(extensions.items())` of the one-entry dictionary. */
  function ServerSigAlgsExtensions(preferredPubkeys: seq<string>): seq<(string, string)> {
    [("server-sig-algs", Join(preferredPubkeys, ","))]
  }

  // ---------------------------------------------------------------------------
  // Properties of the custom path

  /** With the none cipher nothing is derived for the cipher and no engine or IV is installed;
      the block size is the none row's 8. */
  lemma NoneCipherInstallsNoEngine(s: Stream, serverMode: bool, macName: string,
                                   ciphers: map<string, CipherInfo>, macs: map<string, MacInfo>,
                                   kdf: (Slot, nat) -> Bytes)
    requires DirectionKnown("none", macName, ciphers, macs) && ciphers["none"] == NoneCipherInfo
    ensures var r := StreamCipherFor(s, serverMode, "none", macName, ciphers, macs, kdf);
      r.engine.None? && r.iv.None? && !r.sdctr && !r.aead && r.blockSize == 8
    ensures KeyRequests(s, serverMode, "none", macName, ciphers, macs)
         == MacRequests(s, serverMode, macName, false, macs)
  {
  }

  /** A real cipher is keyed from the RFC 4253 letters of the wire direction it carries, and
      its engine is the parent's engine for those keys. */
  lemma RealCipherKeyedPerRfc(s: Stream, serverMode: bool, cipherName: string, macName: string,
                              ciphers: map<string, CipherInfo>, macs: map<string, MacInfo>,
                              kdf: (Slot, nat) -> Bytes)
    requires DirectionKnown(cipherName, macName, ciphers, macs) && cipherName != "none"
    ensures var d := WireDirectionOf(s, serverMode);
      var info := ciphers[cipherName];
      var iv := kdf(RfcSlot(InitialIv, d), IvSize(info));
      var key := kdf(RfcSlot(EncryptionKey, d), info.keySize);
      && CipherRequests(s, serverMode, cipherName, info)
           == [(RfcSlot(InitialIv, d), IvSize(info)), (RfcSlot(EncryptionKey, d), info.keySize)]
      && StreamCipherFor(s, serverMode, cipherName, macName, ciphers, macs, kdf).engine
           == Some(ParentEngine(cipherName, key, Some(iv), Some(OperationFor(s)), info.isAead))
  {
  }

  /** With the none MAC or an AEAD cipher there is no MAC engine, key or etm, and the MAC size
      is the AEAD tag's 16 bytes or 0. */
  lemma UnkeyedMacInstallsNothing(s: Stream, serverMode: bool, cipherName: string, macName: string,
                                  ciphers: map<string, CipherInfo>, macs: map<string, MacInfo>,
                                  kdf: (Slot, nat) -> Bytes)
    requires DirectionKnown(cipherName, macName, ciphers, macs)
    requires macName == "none" || ciphers[cipherName].isAead
    ensures var r := StreamCipherFor(s, serverMode, cipherName, macName, ciphers, macs, kdf);
      && r.macEngine.None? && r.macKey.None? && !r.etm
      && r.macSize == (if ciphers[cipherName].isAead then 16 else 0)
    ensures MacRequests(s, serverMode, macName, ciphers[cipherName].isAead, macs) == []
  {
  }

  /** Otherwise the MAC is keyed from the RFC 4253 integrity letter of its wire direction, and
      encrypt-then-MAC is on exactly for "etm@openssh.com" names. */
  lemma KeyedMacPerRfc(s: Stream, serverMode: bool, cipherName: string, macName: string,
                       ciphers: map<string, CipherInfo>, macs: map<string, MacInfo>,
                       kdf: (Slot, nat) -> Bytes)
    requires DirectionKnown(cipherName, macName, ciphers, macs)
    requires macName != "none" && !ciphers[cipherName].isAead
    ensures var r := StreamCipherFor(s, serverMode, cipherName, macName, ciphers, macs, kdf);
      var row := macs[macName];
      var slot := RfcSlot(IntegrityKey, WireDirectionOf(s, serverMode));
      && r.macEngine == row.hash && r.macSize == row.size
      && r.macKey == Some(kdf(slot, row.hash.value.digestSize))
      && (r.etm <==> exists i :: OccursAt(macName, "etm@openssh.com", i))
      && MacRequests(s, serverMode, macName, false, macs) == [(slot, row.hash.value.digestSize)]
  {
  }

  /** sdctr only for an outbound real cipher named "...-ctr"; the IV goes to the packetizer
      only for an AEAD cipher. */
  lemma SdctrAndIvRules(s: Stream, serverMode: bool, cipherName: string, macName: string,
                        ciphers: map<string, CipherInfo>, macs: map<string, MacInfo>,
                        kdf: (Slot, nat) -> Bytes)
    requires DirectionKnown(cipherName, macName, ciphers, macs)
    ensures var r := StreamCipherFor(s, serverMode, cipherName, macName, ciphers, macs, kdf);
      && (r.sdctr <==> s == Outbound && cipherName != "none" && EndsWith(cipherName, "-ctr"))
      && (r.iv.Some? <==> cipherName != "none" && ciphers[cipherName].isAead)
      && r.aead == ciphers[cipherName].isAead
  {
  }

  /** One peer's outbound stream is set up from the same derived material as the other peer's
      inbound stream: same key requests, keys, IV, MAC and framing. */
  lemma PeerStreamsAgree(serverMode: bool, cipherName: string, macName: string,
                         ciphers: map<string, CipherInfo>, macs: map<string, MacInfo>,
                         kdf: (Slot, nat) -> Bytes)
    requires DirectionKnown(cipherName, macName, ciphers, macs)
    ensures KeyRequests(Outbound, serverMode, cipherName, macName, ciphers, macs)
         == KeyRequests(Inbound, !serverMode, cipherName, macName, ciphers, macs)
    ensures var w := StreamCipherFor(Outbound, serverMode, cipherName, macName, ciphers, macs, kdf);
      var r := StreamCipherFor(Inbound, !serverMode, cipherName, macName, ciphers, macs, kdf);
      && r == w.(engine := r.engine, sdctr := false)
      && (w.engine.None? <==> r.engine.None?)
      && (w.engine.Some? ==> r.engine.value == w.engine.value.(op := Some(Decrypt)))
  {
    PeerSlotsAgree(serverMode);
  }

  /** OpenSSH's delayed compression is never switched on before authentication, and a
      direction without a compressor class keeps what it had and installs nothing. Otherwise
      a fresh instance of the table's class is installed, even when that class is already in
      place. */
  lemma DelayedCompression(s: Stream, factory: Option<Codec>, current: Option<Codec>, name: string,
                           authenticated: bool)
    ensures CompressorAfter("zlib@openssh.com", factory, false, current) == current
    ensures CompressionEffects(s, "zlib@openssh.com", factory, false) == []
    ensures CompressorAfter(name, None, authenticated, current) == current
    ensures CompressionEffects(s, name, None, authenticated) == []
    ensures factory.Some? && (name != "zlib@openssh.com" || authenticated)
            ==> CompressorAfter(name, factory, authenticated, current) == factory
                && CompressionEffects(s, name, factory, authenticated) == [CompressorInstalled(s, factory.value)]
  {
  }

  /** The server-sig-algs value lists the preferred public-key algorithms, comma-separated. */
  lemma ServerSigAlgsListsPubkeys(preferredPubkeys: seq<string>)
    requires |preferredPubkeys| >= 1
    requires forall k :: 0 <= k < |preferredPubkeys| ==> ',' !in preferredPubkeys[k]
    ensures var ext := ServerSigAlgsExtensions(preferredPubkeys);
      |ext| == 1 && ext[0].0 == "server-sig-algs" && Split(ext[0].1, ',') == preferredPubkeys
  {
    SplitJoin(preferredPubkeys, ',');
  }

  // ---------------------------------------------------------------------------
  // The transport

  class NoneCipherTransport {
    /** The class-level algorithm dictionaries. */
    const tables: AlgorithmTables

    /** `_preferred_ciphers` / `_preferred_macs`. */
    var preferredCiphers: seq<string>
    var preferredMacs: seq<string>
    /** The cipher and MAC entries of `disabled_algorithms`. */
    var disabledCiphers: set<string>
    var disabledMacs: set<string>

    var serverMode: bool
    var authenticated: bool
    var agreedOnStrictKex: bool
    var inKex: bool
    var serverSigAlgs: bool
    /** `_remote_ext_info`: the peer's ext-info marker, if any. */
    var remoteExtInfo: Option<string>
    var preferredPubkeys: seq<string>

    /** Negotiated names: `local_*` for what this side writes, `remote_*` for what it reads. */
    var localCipher: string
    var remoteCipher: string
    var localMac: string
    var remoteMac: string
    var localCompression: string
    var remoteCompression: string

    /** `_compute_key` for the current exchange: a function of the letter and the length. */
    var deriveKey: (Slot, nat) -> Bytes
    var packetizer: Packetizer
    var trace: seq<Effect>
    /** The `_compute_key` calls made so far. */
    ghost var keyLog: seq<(Slot, nat)>

    /** The parent's `preferred_ciphers`: `_preferred_ciphers` less the disabled names. */
    function PreferredCiphers(): (r: seq<string>)
      reads this
      ensures forall c :: c in r <==> c in preferredCiphers && c !in disabledCiphers
      ensures |r| <= |preferredCiphers|
    {
      Without(preferredCiphers, disabledCiphers)
    }

    /** The parent's `preferred_macs`: `_preferred_macs` less the disabled names. */
    function PreferredMacs(): (r: seq<string>)
      reads this
      ensures forall m :: m in r <==> m in preferredMacs && m !in disabledMacs
      ensures |r| <= |preferredMacs|
    {
      Without(preferredMacs, disabledMacs)
    }

    /** Every preferred cipher and MAC has a table row. */
    ghost predicate PreferencesInTables()
      reads this, tables
    {
      (forall c :: c in preferredCiphers ==> c in tables.ciphers)
      && (forall m :: m in preferredMacs ==> m in tables.macs)
    }

    /** The table lookups of both activations succeed for names negotiated from the preference
        lists, given that every preferred name has a row (which construction establishes) and
        that every MAC row other than "none" names a hash class. */
    lemma NegotiatedNamesKnown()
      requires PreferencesInTables()
      requires remoteCipher in preferredCiphers && remoteMac in preferredMacs
      requires localCipher in preferredCiphers && localMac in preferredMacs
      requires forall m :: m in tables.macs && m != "none" ==> tables.macs[m].hash.Some?
      ensures DirectionKnown(remoteCipher, remoteMac, tables.ciphers, tables.macs)
      ensures DirectionKnown(localCipher, localMac, tables.ciphers, tables.macs)
    {
    }

    /** EXT_INFO goes out only from a server with server_sig_algs set whose peer said "ext-info-c". */
    predicate SendsExtInfo()
      reads this
    {
      serverMode && serverSigAlgs && remoteExtInfo == Some("ext-info-c")
    }

    /** `__init__`: the parent's set-up, then "none" appended to both preference lists and
        added to the cipher and MAC tables. */
    constructor(tables: AlgorithmTables, defaultCiphers: seq<string>, defaultMacs: seq<string>,
                disabledCiphers: set<string>, disabledMacs: set<string>,
                serverSigAlgs: bool, preferredPubkeys: seq<string>)
      modifies tables
      ensures this.tables == tables
      ensures preferredCiphers == Without(defaultCiphers, disabledCiphers) + ["none"]
      ensures preferredMacs == Without(defaultMacs, disabledMacs) + ["none"]
      ensures preferredCiphers[|preferredCiphers| - 1] == "none" && preferredMacs[|preferredMacs| - 1] == "none"
      ensures tables.ciphers == old(tables.ciphers)["none" := NoneCipherInfo]
      ensures tables.macs == old(tables.macs)["none" := NoneMacInfo]
      ensures tables.compression == old(tables.compression)
      ensures this.disabledCiphers == disabledCiphers && this.disabledMacs == disabledMacs
      ensures this.serverSigAlgs == serverSigAlgs && this.preferredPubkeys == preferredPubkeys
      ensures !serverMode && !authenticated && !agreedOnStrictKex && !inKex && remoteExtInfo == None
      ensures packetizer == InitialPacketizer && trace == [] && keyLog == []
      ensures (forall c :: c in defaultCiphers ==> c in old(tables.ciphers))
              && (forall m :: m in defaultMacs ==> m in old(tables.macs))
              ==> PreferencesInTables()
    {
      // the parent's constructor
      this.tables := tables;
      preferredCiphers := defaultCiphers;
      preferredMacs := defaultMacs;
      this.disabledCiphers := disabledCiphers;
      this.disabledMacs := disabledMacs;
      serverMode, authenticated, agreedOnStrictKex, inKex := false, false, false, false;
      this.serverSigAlgs := serverSigAlgs;
      remoteExtInfo := None;
      this.preferredPubkeys := preferredPubkeys;
      localCipher, remoteCipher, localMac, remoteMac := "", "", "", "";
      localCompression, remoteCompression := "", "";
      packetizer := InitialPacketizer;
      trace := [];
      keyLog := [];
      new;
      preferredCiphers := PreferredCiphers() + ["none"];
      preferredMacs := PreferredMacs() + ["none"];
      tables.ciphers := tables.ciphers["none" := NoneCipherInfo];
      tables.macs := tables.macs["none" := NoneMacInfo];
    }

    /** `_compute_key(slot, n)`. */
    method ComputeKey(slot: Slot, n: nat) returns (key: Bytes)
      modifies this`keyLog
      ensures key == deriveKey(slot, n) && keyLog == old(keyLog) + [(slot, n)]
    {
      keyLog := keyLog + [(slot, n)];
      key := deriveKey(slot, n);
    }

    /** `_send_message`: the packetizer sends under its current outbound state and counts the packet. */
    method SendMessage(m: Message)
      modifies this`packetizer, this`trace
      ensures trace == old(trace) + [Sent(m, old(packetizer.seqnoOut), old(packetizer.outbound), old(packetizer.compressorOut))]
      ensures packetizer == old(packetizer).(seqnoOut := NextSeqno(old(packetizer.seqnoOut)))
    {
      trace := trace + [Sent(m, packetizer.seqnoOut, packetizer.outbound, packetizer.compressorOut)];
      packetizer := packetizer.(seqnoOut := NextSeqno(packetizer.seqnoOut));
    }

    /** `_expect_packet(ptype)`. */
    method ExpectPacket(ptype: nat)
      modifies this`trace
      ensures trace == old(trace) + [Expected(ptype)]
    {
      trace := trace + [Expected(ptype)];
    }

    /** The cipher set-up of `_activate_inbound`. */
    method InboundCipherSetup(cipherName: string, info: CipherInfo) returns (c: CipherSetup)
      modifies this`keyLog
      ensures c == CipherSetupFor(Inbound, serverMode, cipherName, info, deriveKey)
      ensures keyLog == old(keyLog) + CipherRequests(Inbound, serverMode, cipherName, info)
    {
      var engine: Option<Engine> := None;
      var ivIn: Option<Bytes> := None;
      if cipherName != "none" {
        var keySize := info.keySize;
        var ivSize := info.ivSize.GetOr(info.blockSize);
        var iv, keyIn;
        if serverMode {
          iv := ComputeKey(A, ivSize);
          keyIn := ComputeKey(C, keySize);
        } else {
          iv := ComputeKey(B, ivSize);
          keyIn := ComputeKey(D, keySize);
        }
        ivIn := Some(iv);
        engine := GetEngine(cipherName, keyIn, ivIn, Some(Decrypt), info.isAead);
      }
      c := CipherSetup(engine, ivIn, false);
    }

    /** The cipher set-up of `_activate_outbound`. */
    method OutboundCipherSetup(cipherName: string, info: CipherInfo) returns (c: CipherSetup)
      modifies this`keyLog
      ensures c == CipherSetupFor(Outbound, serverMode, cipherName, info, deriveKey)
      ensures keyLog == old(keyLog) + CipherRequests(Outbound, serverMode, cipherName, info)
    {
      var engine: Option<Engine> := None;
      var ivOut: Option<Bytes> := None;
      var sdctr := false;
      if cipherName != "none" {
        var keySize := info.keySize;
        var ivSize := info.ivSize.GetOr(info.blockSize);
        var iv, keyOut;
        if serverMode {
          iv := ComputeKey(B, ivSize);
          keyOut := ComputeKey(D, keySize);
        } else {
          iv := ComputeKey(A, ivSize);
          keyOut := ComputeKey(C, keySize);
        }
        ivOut := Some(iv);
        engine := GetEngine(cipherName, keyOut, ivOut, Some(Encrypt), info.isAead);
        sdctr := EndsWith(cipherName, "-ctr");
      }
      c := CipherSetup(engine, ivOut, sdctr);
    }

    /** The MAC set-up of `_activate_inbound`. */
    method InboundMacSetup(macName: string, aead: bool) returns (m: MacSetup)
      requires MacKnown(macName, aead, tables.macs)
      modifies this`keyLog
      ensures m == MacSetupFor(Inbound, serverMode, macName, aead, tables.macs, deriveKey)
      ensures keyLog == old(keyLog) + MacRequests(Inbound, serverMode, macName, aead, tables.macs)
    {
      var macEngine: Option<HashAlg> := None;
      var macKey: Option<Bytes> := None;
      var macSize: nat := if aead then 16 else 0;
      var etm := false;
      if macName != "none" && !aead {
        var macInfo := tables.macs[macName];
        macSize := macInfo.size;
        macEngine := macInfo.hash;
        var macKeyLen := macInfo.hash.value.digestSize;
        var key;
        if serverMode {
          key := ComputeKey(E, macKeyLen);
        } else {
          key := ComputeKey(F, macKeyLen);
        }
        macKey := Some(key);
        etm := Contains(macName, "etm@openssh.com");
      }
      m := MacSetup(macEngine, macSize, macKey, etm);
    }

    /** The MAC set-up of `_activate_outbound`. */
    method OutboundMacSetup(macName: string, aead: bool) returns (m: MacSetup)
      requires MacKnown(macName, aead, tables.macs)
      modifies this`keyLog
      ensures m == MacSetupFor(Outbound, serverMode, macName, aead, tables.macs, deriveKey)
      ensures keyLog == old(keyLog) + MacRequests(Outbound, serverMode, macName, aead, tables.macs)
    {
      var macEngine: Option<HashAlg> := None;
      var macKey: Option<Bytes> := None;
      var macSize: nat := if aead then 16 else 0;
      var etm := false;
      if macName != "none" && !aead {
        var macInfo := tables.macs[macName];
        macSize := macInfo.size;
        macEngine := macInfo.hash;
        var macKeyLen := macInfo.hash.value.digestSize;
        var key;
        if serverMode {
          key := ComputeKey(F, macKeyLen);
        } else {
          key := ComputeKey(E, macKeyLen);
        }
        macKey := Some(key);
        etm := Contains(macName, "etm@openssh.com");
      }
      m := MacSetup(macEngine, macSize, macKey, etm);
    }

    /** The cipher and MAC set-up of `_activate_inbound`, ending in `set_inbound_cipher`. */
    method SetInboundCipher()
      requires DirectionKnown(remoteCipher, remoteMac, tables.ciphers, tables.macs)
      modifies this`packetizer, this`keyLog
      ensures keyLog == old(keyLog) + KeyRequests(Inbound, serverMode, remoteCipher, remoteMac, tables.ciphers, tables.macs)
      ensures packetizer == old(packetizer).(
        inbound := StreamCipherFor(Inbound, serverMode, remoteCipher, remoteMac, tables.ciphers, tables.macs, deriveKey))
    {
      var info := tables.ciphers[remoteCipher];
      var aead := info.isAead;
      var c := InboundCipherSetup(remoteCipher, info);
      var m := InboundMacSetup(remoteMac, aead);
      packetizer := packetizer.(inbound := StreamCipher(c.engine, info.blockSize, m.engine, m.size, m.key,
                                                        false, m.etm, aead, if aead then c.iv else None));
    }

    /** The compression step of `_activate_inbound`. */
    method SetInboundCompression()
      requires remoteCompression in tables.compression
      modifies this`packetizer, this`trace
      ensures packetizer == old(packetizer).(compressorIn := CompressorAfter(
        remoteCompression, tables.compression[remoteCompression].decompressor, authenticated, old(packetizer.compressorIn)))
      ensures trace == old(trace)
        + CompressionEffects(Inbound, remoteCompression, tables.compression[remoteCompression].decompressor, authenticated)
    {
      var compressIn := tables.compression[remoteCompression].decompressor;
      if compressIn.Some? && (remoteCompression != "zlib@openssh.com" || authenticated) {
        packetizer := packetizer.(compressorIn := compressIn);
        trace := trace + [CompressorInstalled(Inbound, compressIn.value)];
      }
    }

    /** `_activate_inbound`. */
    method ActivateInbound()
      requires UsesNone(remoteCipher, remoteMac) ==>
        DirectionKnown(remoteCipher, remoteMac, tables.ciphers, tables.macs)
        && remoteCompression in tables.compression
      modifies this`packetizer, this`trace, this`keyLog
      ensures !UsesNone(remoteCipher, remoteMac) ==>
        trace == old(trace) + [ParentActivatedInbound]
        && packetizer == old(packetizer) && keyLog == old(keyLog)
      ensures UsesNone(remoteCipher, remoteMac) ==>
        && trace == old(trace)
             + CompressionEffects(Inbound, remoteCompression, tables.compression[remoteCompression].decompressor, authenticated)
        && keyLog == old(keyLog) + KeyRequests(Inbound, serverMode, remoteCipher, remoteMac, tables.ciphers, tables.macs)
        && packetizer == old(packetizer).(
             inbound := StreamCipherFor(Inbound, serverMode, remoteCipher, remoteMac, tables.ciphers, tables.macs, deriveKey),
             compressorIn := CompressorAfter(remoteCompression, tables.compression[remoteCompression].decompressor,
                                             authenticated, old(packetizer.compressorIn)),
             seqnoIn := if agreedOnStrictKex then 0 else old(packetizer.seqnoIn))
    {
      if remoteCipher == "none" || remoteMac == "none" {
        SetInboundCipher();
        SetInboundCompression();
        if agreedOnStrictKex {
          packetizer := packetizer.(seqnoIn := 0);
        }
      } else {
        trace := trace + [ParentActivatedInbound];
      }
    }

    /** The cipher and MAC set-up of `_activate_outbound`, ending in `set_outbound_cipher`. */
    method SetOutboundCipher()
      requires DirectionKnown(localCipher, localMac, tables.ciphers, tables.macs)
      modifies this`packetizer, this`keyLog
      ensures keyLog == old(keyLog) + KeyRequests(Outbound, serverMode, localCipher, localMac, tables.ciphers, tables.macs)
      ensures packetizer == old(packetizer).(
        outbound := StreamCipherFor(Outbound, serverMode, localCipher, localMac, tables.ciphers, tables.macs, deriveKey))
    {
      var info := tables.ciphers[localCipher];
      var aead := info.isAead;
      var c := OutboundCipherSetup(localCipher, info);
      var m := OutboundMacSetup(localMac, aead);
      packetizer := packetizer.(outbound := StreamCipher(c.engine, info.blockSize, m.engine, m.size, m.key,
                                                         c.sdctr, m.etm, aead, if aead then c.iv else None));
    }

    /** The start of `_activate_outbound`: NEWKEYS goes out under the old outbound state, and
        only then does strict key exchange reset the outbound counter. */
    method SendNewKeys()
      modifies this`packetizer, this`trace
      ensures trace == old(trace)
        + [Sent(NewKeysMessage(), old(packetizer.seqnoOut), old(packetizer.outbound), old(packetizer.compressorOut))]
      ensures packetizer == old(packetizer).(
        seqnoOut := if agreedOnStrictKex then 0 else NextSeqno(old(packetizer.seqnoOut)))
    {
      SendMessage(NewKeysMessage());
      if agreedOnStrictKex {
        packetizer := packetizer.(seqnoOut := 0);
      }
    }

    /** The compression step of `_activate_outbound`. */
    method SetOutboundCompression()
      requires localCompression in tables.compression
      modifies this`packetizer, this`trace
      ensures packetizer == old(packetizer).(compressorOut := CompressorAfter(
        localCompression, tables.compression[localCompression].compressor, authenticated, old(packetizer.compressorOut)))
      ensures trace == old(trace)
        + CompressionEffects(Outbound, localCompression, tables.compression[localCompression].compressor, authenticated)
    {
      var compressOut := tables.compression[localCompression].compressor;
      if compressOut.Some? && (localCompression != "zlib@openssh.com" || authenticated) {
        packetizer := packetizer.(compressorOut := compressOut);
        trace := trace + [CompressorInstalled(Outbound, compressOut.value)];
      }
    }

    /** The final steps of `_activate_outbound`: leave the key exchange unless a rekey is due,
        send EXT_INFO when it applies, then wait for the peer's NEWKEYS. */
    method FinishOutbound()
      modifies this`packetizer, this`trace, this`inKex
      ensures inKex == (old(inKex) && packetizer.needRekey)
      ensures trace == old(trace)
        + (if SendsExtInfo()
           then [Sent(ExtInfoMessage(ServerSigAlgsExtensions(preferredPubkeys)), old(packetizer.seqnoOut),
                      old(packetizer.outbound), old(packetizer.compressorOut))]
           else [])
        + [Expected(MsgNewKeys)]
      ensures packetizer == old(packetizer).(
        seqnoOut := if SendsExtInfo() then NextSeqno(old(packetizer.seqnoOut)) else old(packetizer.seqnoOut))
    {
      if !packetizer.needRekey {
        inKex := false;
      }
      if serverMode && serverSigAlgs && remoteExtInfo == Some("ext-info-c") {
        var extInfo := BuildExtInfo(ServerSigAlgsExtensions(preferredPubkeys));
        SendMessage(extInfo);
      }
      ExpectPacket(MsgNewKeys);
    }

    /** `_activate_outbound`. */
    method ActivateOutbound()
      requires UsesNone(localCipher, localMac) ==>
        DirectionKnown(localCipher, localMac, tables.ciphers, tables.macs)
        && localCompression in tables.compression
      modifies this`packetizer, this`trace, this`keyLog, this`inKex
      ensures !UsesNone(localCipher, localMac) ==>
        trace == old(trace) + [ParentActivatedOutbound]
        && packetizer == old(packetizer) && keyLog == old(keyLog) && inKex == old(inKex)
      ensures UsesNone(localCipher, localMac) ==>
        var afterNewKeys := if agreedOnStrictKex then 0 else NextSeqno(old(packetizer.seqnoOut));
        var cipher := StreamCipherFor(Outbound, serverMode, localCipher, localMac, tables.ciphers, tables.macs, deriveKey);
        var compressor := CompressorAfter(localCompression, tables.compression[localCompression].compressor,
                                          authenticated, old(packetizer.compressorOut));
        && keyLog == old(keyLog) + KeyRequests(Outbound, serverMode, localCipher, localMac, tables.ciphers, tables.macs)
        && trace == old(trace)
             + [Sent(NewKeysMessage(), old(packetizer.seqnoOut), old(packetizer.outbound), old(packetizer.compressorOut))]
             + CompressionEffects(Outbound, localCompression, tables.compression[localCompression].compressor, authenticated)
             + (if SendsExtInfo()
                then [Sent(ExtInfoMessage(ServerSigAlgsExtensions(preferredPubkeys)), afterNewKeys, cipher, compressor)]
                else [])
             + [Expected(MsgNewKeys)]
        && packetizer == old(packetizer).(
             outbound := cipher, compressorOut := compressor,
             seqnoOut := if SendsExtInfo() then NextSeqno(afterNewKeys) else afterNewKeys)
        && inKex == (old(inKex) && old(packetizer.needRekey))
    {
      if localCipher == "none" || localMac == "none" {
        SendNewKeys();
        SetOutboundCipher();
        SetOutboundCompression();
        FinishOutbound();
      } else {
        trace := trace + [ParentActivatedOutbound];
      }
    }
  }
}
