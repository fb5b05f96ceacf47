# Null-cipher SSH transport activation, modelled in Dafny

This project models `NoneCipherTransport`, a paramiko `Transport` subclass that allows the
"none" cipher and the "none" MAC (sections 6.3 and 6.4 of RFC 4253) to be negotiated. It
also models the demo server's authentication/channel handler `AllowAllServer` and the
reordering that moves "none" to the front of a transport's preference lists.

What is modelled:

- **Construction** (`NoneCipherTransport.constructor`). The parent's preference lists, less the
  disabled names, get "none" appended. A "none" row is added to the cipher table (8-byte
  blocks, no key, no IV, not AEAD) and to the MAC table (no class, size 0). The tables are
  paramiko class attributes, so they are one `AlgorithmTables` object shared by every
  transport, and the constructor updates that object in place.
- **`_get_engine`** (`GetEngine`). It returns no engine for "none". Any other name goes to the
  parent unchanged. A parent engine is represented by the arguments it was built from.
- **Stream activation** (`ActivateInbound`, `ActivateOutbound`). A direction whose cipher or MAC
  is "none" takes the custom path. Any other direction only records a "parent activated" event.
  On the custom path the model states:
  - which key-derivation letters (section 7.2 of RFC 4253) are requested, in call order;
  - the record handed to the packetizer;
  - the compressor switched on;
  - the strict-KEX sequence-number reset;
  - EXT_INFO (section 2.3 of RFC 8308);
  - the order of the NEWKEYS send and expect steps.

  The packetizer is a record (`Packetizer`) that includes 32-bit sequence counters. Sending a
  message appends a `Sent` event to an effect trace. The event carries the sequence number and
  the outbound state the message went out under. Sending also advances the counter modulo 2^32.
  `_compute_key` is the transport's function-valued field `deriveKey`, and a ghost `keyLog`
  records each request.
- **Specification functions and lemmas.** `StreamCipherFor` and `KeyRequests` give what one
  direction installs and requests. The lemmas compare these with the RFC 4253 letter table
  (`RfcSlot`). They also show that one peer's outbound set-up uses the same derived material
  as the other peer's inbound set-up.
- **Server policy.** `AllowAllServer` keeps the handler's event as the boolean `authSignalled`.
  `NoneFirst` is the pure reordering. `PreferNone` applies it to a transport.

## Model

| member | source | states |
|---|---|---|
| `NoneCipher.NoneCipherTransport.constructor` | none_cipher_transport.py:12-27 | both preference lists are the parent's enabled list with "none" appended, so "none" is last and earlier names keep their order; the shared tables gain exactly the none rows (block 8, key 0, IV 0, not AEAD; MAC class None, size 0), other rows unchanged; if the parent's lists had rows, every preferred name has a row |
| `NoneCipher.NoneCipherTransport.PreferredCiphers` | none_cipher_transport.py:16 | the parent's `preferred_ciphers` view that construction extends: `_preferred_ciphers` less the disabled names |
| `NoneCipher.NoneCipherTransport.PreferredMacs` | none_cipher_transport.py:17 | the parent's `preferred_macs` view that construction extends: exactly the names of `_preferred_macs` that are not disabled |
| `NoneCipher.NoneCipherTransport.NegotiatedNamesKnown` | none_cipher_transport.py:49-79 | the lookups at lines 49, 77 and 133, 163 succeed for cipher and MAC names taken from the preference lists, given that every preferred name has a row (construction's guarantee) and that every MAC row other than "none" names a class |
| `NoneCipher.NoneCipherTransport.ComputeKey` | none_cipher_transport.py:59-60 | `_compute_key(letter, n)` returns the exchange's derived bytes for that letter and length, and the call is logged |
| `NoneCipher.NoneCipherTransport.SendMessage` | none_cipher_transport.py:125 | `_send_message` (also at line 203) sends under the current outbound cipher, compressor and counter, then advances the counter modulo 2^32; nothing else changes |
| `NoneCipher.NoneCipherTransport.ExpectPacket` | none_cipher_transport.py:204 | `_expect_packet(MSG_NEWKEYS)` is recorded as the last effect |
| `NoneCipher.NoneCipherTransport.SendsExtInfo` | none_cipher_transport.py:191-195 | the EXT_INFO condition: server mode, server_sig_algs set, and the peer's `_remote_ext_info` equal to "ext-info-c" (an absent attribute counts as not equal) |
| `NoneCipher.CompressorAfter` | none_cipher_transport.py:95-100 | the compressor class in place after one direction's compression step (also lines 181-186); its behaviour is stated by `DelayedCompression` |
| `NoneCipher.GetEngine` | none_cipher_transport.py:30-33 | no engine exactly when the name is "none"; otherwise the parent's engine for the same name, key, IV, operation and AEAD flag |
| `NoneCipher.CipherSlots` | none_cipher_transport.py:58-63 | the (IV, key) letters asked for, which are also those of lines 143-148 outbound: inbound A,C on a server and B,D on a client, outbound the reverse; each equals the RFC 4253 section 7.2 letter of the wire direction the stream carries |
| `NoneCipher.MacSlot` | none_cipher_transport.py:81-84 | the MAC-key letter (E/F inbound, F/E outbound at lines 167-170) equals the RFC 4253 integrity letter of the stream's wire direction |
| `NoneCipher.PeerSlotsAgree` | none_cipher_transport.py:143-148 | a server's outbound letters equal a client's inbound letters and vice versa, and a peer's two streams never share letters |
| `NoneCipher.NoneCipherInstallsNoEngine` | none_cipher_transport.py:48-67 | with the none cipher no cipher key or IV is derived (only the MAC key, if any), no engine and no IV are installed, sdctr and AEAD are off, and the block size is 8 |
| `NoneCipher.RealCipherKeyedPerRfc` | none_cipher_transport.py:55-67 | a real cipher derives its IV then its key from the RFC letters of its wire direction, with IV length iv-size or the block size, and its engine is the parent's engine over that key and IV |
| `NoneCipher.UnkeyedMacInstallsNothing` | none_cipher_transport.py:70-76 | with the none MAC or an AEAD cipher there is no MAC engine, key or etm, nothing is derived for the MAC, and the MAC size is 16 for AEAD and 0 otherwise |
| `NoneCipher.KeyedMacPerRfc` | none_cipher_transport.py:76-85 | otherwise the MAC engine and size come from the MAC row, the key is derived from the RFC integrity letter with the digest size as length, and etm holds iff the name contains "etm@openssh.com" |
| `NoneCipher.SdctrAndIvRules` | none_cipher_transport.py:136-177 | sdctr holds iff the stream is outbound, the cipher is not none and its name ends in "-ctr"; the IV reaches the packetizer iff the cipher is real and AEAD |
| `NoneCipher.PeerStreamsAgree` | none_cipher_transport.py:52-92 | one peer's outbound key requests equal the other peer's inbound ones, and the two stream records agree on keys, IV, MAC, block size and flags, differing only in the engine's operation (encrypt vs decrypt) and sdctr |
| `NoneCipher.DelayedCompression` | none_cipher_transport.py:95-100 | "zlib@openssh.com" is never switched on before authentication, and a direction with no compressor class keeps its compressor; neither installs anything. Otherwise a fresh instance of the table's class is installed, even if that class is already in place |
| `NoneCipher.ServerSigAlgsListsPubkeys` | none_cipher_transport.py:196 | the one extension is "server-sig-algs", and splitting its value on commas gives back the preferred public-key algorithms |
| `SeqUtil.SplitJoin` | none_cipher_transport.py:196 | joining comma-free names with "," and splitting the result on "," gives the names back |
| `SeqUtil.EndsWith` | none_cipher_transport.py:153 | Python's `str.endswith`: the suffix occurs at the last possible index, and so the string contains it |
| `SeqUtil.Contains` | none_cipher_transport.py:85 | Python's substring test: true iff the pattern occurs at some index |
| `SshMessage.BuildExtInfo` | none_cipher_transport.py:197-202 | the loop builds the EXT_INFO message number, the extension count, then each name and value in list order; a parser recovers exactly the list |
| `SshMessage.ExtInfoRoundTrip` | none_cipher_transport.py:197-202 | reading an EXT_INFO payload back (section 2.3 of RFC 8308) gives the extensions written, in order |
| `NoneCipher.NoneCipherTransport.InboundCipherSetup` | none_cipher_transport.py:48-67 | the inbound cipher set-up yields the engine and IV of `CipherSetupFor` and logs exactly the letters of `CipherRequests` |
| `NoneCipher.NoneCipherTransport.InboundMacSetup` | none_cipher_transport.py:70-85 | the inbound MAC set-up yields `MacSetupFor` and logs exactly `MacRequests` |
| `NoneCipher.NoneCipherTransport.SetInboundCipher` | none_cipher_transport.py:48-92 | `set_inbound_cipher` receives `StreamCipherFor(Inbound, …)`; only the inbound record changes |
| `NoneCipher.NoneCipherTransport.SetInboundCompression` | none_cipher_transport.py:95-100 | only the inbound compressor changes, to `CompressorAfter` of the decompressor class; each switch-on adds one `CompressorInstalled(Inbound, class)` effect |
| `NoneCipher.NoneCipherTransport.ActivateInbound` | none_cipher_transport.py:37-110 | without a none cipher or MAC only a parent-activation event is added. With one: no message is sent, and the only effect is the compressor installation, if any; the key log grows by `KeyRequests(Inbound, …)`; the inbound record, the inbound compressor and the inbound counter change (reset to 0 iff strict KEX); every outbound field stays |
| `NoneCipher.NoneCipherTransport.OutboundCipherSetup` | none_cipher_transport.py:132-153 | the outbound cipher set-up yields the engine, IV and sdctr of `CipherSetupFor` and logs exactly `CipherRequests` |
| `NoneCipher.NoneCipherTransport.OutboundMacSetup` | none_cipher_transport.py:156-171 | the outbound MAC set-up yields `MacSetupFor` and logs exactly `MacRequests` |
| `NoneCipher.NoneCipherTransport.SendNewKeys` | none_cipher_transport.py:123-129 | NEWKEYS is sent with the old counter, cipher and compressor, and only then does strict KEX reset the outbound counter |
| `NoneCipher.NoneCipherTransport.SetOutboundCipher` | none_cipher_transport.py:131-178 | `set_outbound_cipher` receives `StreamCipherFor(Outbound, …)`; only the outbound record changes |
| `NoneCipher.NoneCipherTransport.SetOutboundCompression` | none_cipher_transport.py:181-186 | only the outbound compressor changes, to `CompressorAfter` of the compressor class; each switch-on adds one `CompressorInstalled(Outbound, class)` effect |
| `NoneCipher.NoneCipherTransport.FinishOutbound` | none_cipher_transport.py:189-204 | in_kex is cleared unless a rekey is pending; EXT_INFO with server-sig-algs is sent iff server mode, server_sig_algs and the peer's "ext-info-c"; the last effect is expecting NEWKEYS |
| `NoneCipher.NoneCipherTransport.ActivateOutbound` | none_cipher_transport.py:113-209 | without a none cipher or MAC only a parent-activation event is added. With one, the trace gains, in order: NEWKEYS under the old outbound state and counter; the compressor installation, if any; EXT_INFO (when it applies) under the new state with the post-reset counter; expect NEWKEYS. The outbound record, the compressor and the counter change as stated; the inbound side stays |
| `SeqUtil.Without` | ssh_server.py:82-83 | the comprehension keeps exactly the names of the input not excluded, in order, and is no longer than the input |
| `SeqUtil.WithoutCounts` | ssh_server.py:82-83 | every kept name occurs as often as in the input, every excluded name not at all |
| `SshServer.NoneFirst` | ssh_server.py:82-83 | the reordered list begins with "none", holds "none" and the original names only, and is one longer than the non-none originals |
| `SshServer.NoneFirstCounts` | ssh_server.py:82-83 | "none" occurs exactly once and every other name as often as in the original |
| `SshServer.NoneFirstKeepsOrder` | ssh_server.py:82-83 | leaving "none" out of the reordered list gives the non-none originals in their original order |
| `SshServer.ServerPreferencesAfterSetup` | ssh_server.py:81-83 | after construction and reordering a server's list is "none" followed by the enabled defaults other than "none", in default order, for any set of disabled names (including "none") |
| `SshServer.PreferNone` | ssh_server.py:82-83 | both transport lists become `NoneFirst` of the enabled lists, and every preferred name still has a table row |
| `SshServer.AllowAllServer.constructor` | ssh_server.py:29-30 | the event starts unset |
| `SshServer.AllowAllServer.CheckChannelRequest` | ssh_server.py:32-36 | OPEN_SUCCEEDED iff the kind is "session", administratively prohibited otherwise |
| `SshServer.AllowAllServer.CheckAuthNone` | ssh_server.py:38-42 | AUTH_SUCCESSFUL for every username, and the event is set |
| `SshServer.AllowAllServer.CheckAuthPassword` | ssh_server.py:45-47 | AUTH_FAILED for every input; the event is unchanged (the method modifies nothing) |
| `SshServer.AllowAllServer.CheckAuthPublickey` | ssh_server.py:49-51 | AUTH_FAILED for every input; the event is unchanged |
| `SshServer.AllowAllServer.GetAllowedAuths` | ssh_server.py:53-56 | "none" for every username |
| `SshServer.AllowAllServer.CheckChannelShellRequest` | ssh_server.py:58-64 | always accepted, and the event is set |
| `SshServer.AllowAllServer.CheckChannelPtyRequest` | ssh_server.py:66-71 | always accepted; the event is unchanged |

## Behaviour of the code worth knowing

- The cipher and MAC dictionaries are class-level attributes of paramiko's `Transport`.
  `__init__` updates them in place, so every transport in the process shares the added
  "none" rows (`AlgorithmTables` is one shared object).
- With the "none" cipher no `_compute_key` call is made for the cipher key or IV. With the
  "none" MAC, or an AEAD cipher, none is made for the MAC key. `KeyRequests` lists exactly
  the calls that are made.
- EXT_INFO goes out on every custom-path outbound activation that meets its three conditions
  (server mode, server_sig_algs, and the peer's "ext-info-c"), rekeys included.
- Every switch-on of compression installs a fresh compressor instance, even when an instance
  of the same class is already in place. The model records each installation as a
  `CompressorInstalled` effect.

## Left out

- Key derivation itself: the hash of `_compute_key` is not modelled. `deriveKey` is an
  unconstrained function of letter and length, set by a key exchange that is not modelled.
- Engine construction: the parent's `_get_engine` and the MAC classes' `digest_size` are
  represented symbolically (`ParentEngine`, `HashAlg.digestSize`).
- Packet framing, padding, encryption, MAC checking, compression of payloads, and the
  Packetizer's rekey accounting are not modelled. In paramiko, installing both directions'
  ciphers may clear the rekey flag. Here `needRekey` is only read, never written.
- The byte encoding of paramiko's `Message` is not modelled. A message is a sequence of typed
  fields.
- NoneCipher.NoneCipherTransport.ActivateInbound: the parent's `_activate_inbound` is
  recorded only as an event. Its changes to the packetizer are not modelled, because its body
  is not part of this model.
- NoneCipher.NoneCipherTransport.ActivateOutbound: the parent's `_activate_outbound` is
  recorded only as an event, for the same reason.
- NoneCipher.NoneCipherTransport.ActivateInbound: requires that, on the custom path, the
  negotiated cipher, MAC and compression names have table rows and that a keyed MAC's row
  names a class. The code does not handle these cases (it would raise KeyError or TypeError).
  paramiko's negotiation, which is not part of this model, only picks names from the
  preference lists. `NegotiatedNamesKnown` shows that the cipher and MAC parts of the
  precondition follow from that. The compression row is required directly, because the
  compression preference list is not modelled.
- NoneCipher.NoneCipherTransport.ActivateOutbound: the same precondition as `ActivateInbound`,
  for the local names.
- Algorithm negotiation (`_parse_kex_init`) is not modelled. The negotiated names, role flags
  and `_remote_ext_info` are fields that callers set.
- `sorted(extensions.items())` over the one-entry dictionary is taken as that single pair.
  No general sorting is modelled.
- `preferred_pubkeys` is taken as a given list. The parent's filtering of it is not modelled.
- `_log` calls and logging configuration have no behavioural effect and are not modelled.
- ssh_client.py is not part of this model. Its only logic, the reordering at lines 34-35, is
  identical to ssh_server.py:82-83 and is modelled once, by `NoneFirst`.
- ssh_server.py `main` and `handle_connection`, apart from the reordering, are not modelled.
  These are the socket accept loop, per-connection threads, `event.wait` timeouts, sending
  the greeting and closing. They are I/O and concurrency. RSA host-key generation is a
  foreign cryptographic call. The handler's `threading.Event` is reduced to a boolean.
