/** The demo server's policy: a handler that admits "none" authentication and session
    channels, and the reordering that puts "none" first in a transport's preferences. */
module SshServer {
  import opened SeqUtil
  import opened NoneCipher

  /** paramiko's channel-open and authentication result codes. */
  const OpenSucceeded: int := 0
  const OpenFailedAdministrativelyProhibited: int := 1
  const AuthSuccessful: int := 0
  const AuthFailed: int := 2

  // ---------------------------------------------------------------------------
  // Preference reordering

  /** `('none',) + tuple(c for c in prefs if c != 'none')`. */
  function NoneFirst(prefs: seq<string>): (r: seq<string>)
    ensures |r| >= 1 && r[0] == "none"
    ensures forall x :: x in r <==> x == "none" || x in prefs
    ensures |r| == |Without(prefs, {"none"})| + 1
  {
    ["none"] + Without(prefs, {"none"})
  }

  /** "none" occurs exactly once, and every other name exactly as often as before. */
  lemma NoneFirstCounts(prefs: seq<string>)
    ensures multiset(NoneFirst(prefs))["none"] == 1
    ensures forall x :: x != "none" ==> multiset(NoneFirst(prefs))[x] == multiset(prefs)[x]
  {
    WithoutCounts(prefs, {"none"});
  }

  /** Leaving "none" out again gives the other names in their original order. */
  lemma NoneFirstKeepsOrder(prefs: seq<string>)
    ensures Without(NoneFirst(prefs), {"none"}) == Without(prefs, {"none"})
  {
    var rest := Without(prefs, {"none"});
    WithoutAppend(["none"], rest, {"none"});
    assert Without(["none"], {"none"}) == [] by {
      assert ["none"][1..] == [];
    }
    WithoutTwice(prefs, {"none"}, {"none"});
    assert {"none"} + {"none"} == {"none"};
  }

  /** A server's cipher (or MAC) list after construction and reordering: "none" first, then the
      enabled defaults other than "none", in their default order. This holds whether or not
      "none" itself is disabled. */
  lemma ServerPreferencesAfterSetup(defaults: seq<string>, disabled: set<string>)
    ensures NoneFirst(Without(Without(defaults, disabled) + ["none"], disabled))
         == ["none"] + Without(defaults, disabled + {"none"})
  {
    var enabled := Without(defaults, disabled);
    var none1: seq<string> := ["none"];
    assert none1[1..] == [];
    WithoutAppend(enabled, none1, disabled);
    WithoutTwice(defaults, disabled, disabled);
    assert disabled + disabled == disabled;
    var listed := enabled + none1;
    WithoutTwice(defaults, disabled, {"none"});
    if "none" in disabled {
      assert Without(none1, disabled) == [];
      assert Without(listed, disabled) == enabled;
    } else {
      assert Without(none1, disabled) == none1;
      assert Without(listed, disabled) == listed;
      WithoutAppend(enabled, none1, {"none"});
      assert Without(none1, {"none"}) == [];
      assert Without(listed, {"none"}) == Without(enabled, {"none"});
    }
  }

  /** Lines 82-83 of the connection handler: both preference lists are rebuilt from the
      transport's enabled names with "none" moved to the front. */
  method PreferNone(t: NoneCipherTransport)
    modifies t`preferredCiphers, t`preferredMacs
    ensures t.preferredCiphers == NoneFirst(old(t.PreferredCiphers()))
    ensures t.preferredMacs == NoneFirst(old(t.PreferredMacs()))
    ensures old(t.PreferencesInTables()) && "none" in t.tables.ciphers && "none" in t.tables.macs
            ==> t.PreferencesInTables()
  {
    t.preferredCiphers := NoneFirst(t.PreferredCiphers());
    t.preferredMacs := NoneFirst(t.PreferredMacs());
  }

  // ---------------------------------------------------------------------------
  // The authentication and channel handler

  class AllowAllServer {
    /** The handler's `threading.Event`, reduced to whether it has been set. */
    var authSignalled: bool

    constructor()
      ensures !authSignalled
    {
      authSignalled := false;
    }

    /** Only session channels are opened; anything else is administratively prohibited. */
    method CheckChannelRequest(kind: string, chanid: int) returns (r: int)
      ensures r == OpenSucceeded <==> kind == "session"
      ensures r != OpenSucceeded ==> r == OpenFailedAdministrativelyProhibited
    {
      if kind == "session" {
        return OpenSucceeded;
      }
      return OpenFailedAdministrativelyProhibited;
    }

    /** "none" authentication succeeds for every user and signals the event. */
    method CheckAuthNone(username: string) returns (r: int)
      modifies this
      ensures r == AuthSuccessful && authSignalled
    {
      authSignalled := true;
      return AuthSuccessful;
    }

    /** Password authentication always fails; the event is untouched. */
    method CheckAuthPassword(username: string, password: string) returns (r: int)
      ensures r == AuthFailed
    {
      return AuthFailed;
    }

    /** Public-key authentication always fails; the event is untouched. */
    method CheckAuthPublickey(username: string, key: Bytes) returns (r: int)
      ensures r == AuthFailed
    {
      return AuthFailed;
    }

    /** Only "none" is offered, whoever asks. */
    method GetAllowedAuths(username: string) returns (r: string)
      ensures r == "none"
    {
      return "none";
    }

    /** A shell request is accepted and signals the event. */
    method CheckChannelShellRequest(channel: int) returns (ok: bool)
      modifies this
      ensures ok && authSignalled
    {
      authSignalled := true;
      return true;
    }

    /** A PTY request is accepted; the event is untouched. */
    method CheckChannelPtyRequest(channel: int, term: string, width: int, height: int,
                                  pixelWidth: int, pixelHeight: int, modes: Bytes) returns (ok: bool)
      ensures ok
    {
      return true;
    }
  }
}
