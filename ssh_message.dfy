/** The payloads the activation code writes with paramiko's Message class, as a sequence
    of typed fields (the byte-level encoding of each field is paramiko's and is not modelled). */
module SshMessage {
  import opened Wrappers

  /** One item written into a Message: `add_byte`, `add_int` (a uint32) or `add_string`. */
  datatype Field = Byte(b: nat) | UInt32(n: nat) | Str(s: string)

  type Message = seq<Field>

  /** SSH_MSG_EXT_INFO, section 2.3 of RFC 8308. */
  const MsgExtInfo: nat := 7

  /** SSH_MSG_NEWKEYS, section 7.3 of RFC 4253. */
  const MsgNewKeys: nat := 21

  /** The NEWKEYS message: the message number and nothing else. */
  function NewKeysMessage(): Message {
    [Byte(MsgNewKeys)]
  }

  /** Each extension as its name string followed by its value string. */
  function PairFields(items: seq<(string, string)>): Message {
    if items == [] then []
    else [Str(items[0].0), Str(items[0].1)] + PairFields(items[1..])
  }

  /** EXT_INFO: the message number, the number of extensions, then the name/value pairs. */
  function ExtInfoMessage(items: seq<(string, string)>): Message {
    [Byte(MsgExtInfo), UInt32(|items|)] + PairFields(items)
  }

  /** Reads exactly `k` name/value pairs and nothing after them. */
  function ParsePairs(m: Message, k: nat): Option<seq<(string, string)>>
    decreases k
  {
    if k == 0 then
      if m == [] then Some([]) else None
    else if |m| >= 2 && m[0].Str? && m[1].Str? then
      match ParsePairs(m[2..], k - 1)
      case None => None
      case Some(rest) => Some([(m[0].s, m[1].s)] + rest)
    else None
  }

  /** How a peer reads an EXT_INFO payload (section 2.3 of RFC 8308). */
  function ParseExtInfo(m: Message): Option<seq<(string, string)>> {
    if |m| >= 2 && m[0] == Byte(MsgExtInfo) && m[1].UInt32? then ParsePairs(m[2..], m[1].n)
    else None
  }

  lemma {:induction false} ParsePairsRoundTrip(items: seq<(string, string)>)
    ensures ParsePairs(PairFields(items), |items|) == Some(items)
  {
    if items != [] {
      ParsePairsRoundTrip(items[1..]);
      assert PairFields(items)[2..] == PairFields(items[1..]);
      assert [items[0]] + items[1..] == items;
    }
  }

  /** The EXT_INFO payload carries its count and exactly the pairs written, in order. */
  lemma ExtInfoRoundTrip(items: seq<(string, string)>)
    ensures ParseExtInfo(ExtInfoMessage(items)) == Some(items)
  {
    assert ExtInfoMessage(items)[2..] == PairFields(items);
    ParsePairsRoundTrip(items);
  }

  lemma {:induction false} PairFieldsSnoc(items: seq<(string, string)>, p: (string, string))
    ensures PairFields(items + [p]) == PairFields(items) + [Str(p.0), Str(p.1)]
  {
    if items == [] {
      assert items + [p] == [p];
    } else {
      assert (items + [p])[1..] == items[1..] + [p];
      PairFieldsSnoc(items[1..], p);
    }
  }

  /** The EXT_INFO build loop of `_activate_outbound`: one count, then each pair of the
      (already sorted) extension list appended in turn. */
  method BuildExtInfo(items: seq<(string, string)>) returns (m: Message)
    ensures m == ExtInfoMessage(items)
    ensures ParseExtInfo(m) == Some(items)
  {
    m := [Byte(MsgExtInfo)];
    m := m + [UInt32(|items|)];
    var i := 0;
    while i < |items|
      invariant 0 <= i <= |items|
      invariant m == [Byte(MsgExtInfo), UInt32(|items|)] + PairFields(items[..i])
    {
      var (name, value) := items[i];
      PairFieldsSnoc(items[..i], items[i]);
      assert items[..i + 1] == items[..i] + [items[i]];
      m := m + [Str(name)];
      m := m + [Str(value)];
      i := i + 1;
    }
    assert items[..i] == items;
    ExtInfoRoundTrip(items);
  }
}
