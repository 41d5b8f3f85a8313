/** Terminal ids and the stored shape of a registration. */
module TerminalIds {
  import opened Options

  /** An id is the hash of what it was made from. The hash is taken to be injective, so it is
      written here as those parts; any other text a file or a till may hold is `Text`. */
  datatype Id = Network(host: string, port: int, serial: string) | Com(name: string) | Text(text: string)

  const NO_ID := Text("")

  /** `make_network_terminal_id`: the serial slot is filled exactly when the host slot is
      empty, unless neither is known. */
  function CurrentId(host: string, port: int, serial: string): Id {
    if serial != "" then Network("", port, serial) else Network(host, port, "")
  }

  /** `legacy_network_terminal_id`: the host was hashed even when the serial was known. */
  function LegacyId(host: string, port: int, serial: string): Id {
    Network(host, port, serial)
  }

  datatype Address = Address(host: string, port: int, http: bool)

  /** A missing text is the empty one, as for the source's tests of truth. */
  datatype Descriptor = Descriptor(id: Id, caption: string, serial: string, network: Option<Address>)

  datatype Merchant = Merchant(mid: string, tid: string, name: string, nickname: string)

  datatype Registration = Registration(
    descriptor: Descriptor, kind: nat, nickname: string, defaultMerchant: string, defaultTerminal: string,
    merchants: seq<Merchant>, knownIds: seq<Id>)

  type Key = (string, string)

  function KeyOf(m: Merchant): Key {
    (m.mid, m.tid)
  }

  /** Two devices never share an id made from a serial, nor does one with an address. */
  lemma SerialIdsNameDevices(h1: string, p1: int, s1: string, h2: string, p2: int, s2: string)
    requires s1 != "" && h2 != ""
    ensures CurrentId(h1, p1, s1) == CurrentId(h2, p2, s2) <==> s1 == s2 && p1 == p2
    ensures CurrentId(h1, p1, s1) != LegacyId(h2, p2, s2)
    ensures CurrentId(h2, p2, s1) == CurrentId(h1, p2, s1)
  {
  }
}
