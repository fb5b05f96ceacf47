/** paramiko's algorithm dictionaries `_cipher_info`, `_mac_info` and `_compression_info`.
    Only the entries the activation code reads are kept; how engines are built from the
    "class" and "mode" entries is paramiko's and is not modelled. */
module Registry {
  import opened Wrappers

  /** A `_cipher_info` row. `ivSize` is None when the row has no "iv-size" key;
      `isAead` is the row's "is_aead" key, an absent key meaning false. */
  datatype CipherInfo = CipherInfo(blockSize: nat, keySize: nat, ivSize: Option<nat>, isAead: bool)

  /** The hash class a MAC row names; an instance of it reports `digestSize`. */
  datatype HashAlg = HashAlg(name: string, digestSize: nat)

  /** A `_mac_info` row: its "class" (None for the none MAC) and its "size". */
  datatype MacInfo = MacInfo(hash: Option<HashAlg>, size: nat)

  /** A compressor or decompressor class. The packetizer state keeps the class of the installed
      instance; each installation of a fresh instance is recorded separately, as an effect. */
  datatype Codec = Codec(name: string)

  /** A `_compression_info` row: (compressor class, decompressor class). */
  datatype CompressionInfo = CompressionInfo(compressor: Option<Codec>, decompressor: Option<Codec>)

  /** The row `__init__` adds for the none cipher: 8-byte blocks, no key, no IV, not AEAD. */
  const NoneCipherInfo := CipherInfo(8, 0, Some(0), false)

  /** The row `__init__` adds for the none MAC: no class, size 0. */
  const NoneMacInfo := MacInfo(None, 0)

  /** The dictionaries are class attributes of paramiko's Transport: one object shared by
      every transport, so an update through one transport is seen by all of them. */
  class AlgorithmTables {
    var ciphers: map<string, CipherInfo>
    var macs: map<string, MacInfo>
    var compression: map<string, CompressionInfo>

    constructor(ciphers: map<string, CipherInfo>, macs: map<string, MacInfo>,
                compression: map<string, CompressionInfo>)
      ensures this.ciphers == ciphers && this.macs == macs && this.compression == compression
    {
      this.ciphers := ciphers;
      this.macs := macs;
      this.compression := compression;
    }
  }
}
