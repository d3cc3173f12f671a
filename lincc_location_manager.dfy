/**
 * The modellable parts of LinccLocationManager: shortening an address line for
 * display, and announcing this client over mDNS once the provider is connected.
 * Location sensing, Wi-Fi scanning and geocoding are not part of this model.
 */
module LocationManager {
  import opened Wrappers
  import opened ZeroConf

  /** Address lines shorter than this are shown in full. */
  const TRIM_THRESHOLD: nat := 27
  /** Characters kept from the start of a long address line. */
  const HEAD_LENGTH: nat := 18
  /** Characters kept from the end of a long address line. */
  const TAIL_LENGTH: nat := 5
  const ELLIPSIS: string := "..."
  /** Port announced in this component's mDNS record. */
  const MDNS_PORT: int := 8033
  const NAME_PREFIX: string := "Hoccer Client "

  /**
   * `trimAddress`: a line of fewer than 27 characters is returned as it is; a
   * longer one becomes its first 18 characters, "..." and its last 5 characters.
   */
  function TrimAddress(line: string): (r: string)
    ensures |line| < TRIM_THRESHOLD ==> r == line
    ensures |line| >= TRIM_THRESHOLD ==>
              && |r| == HEAD_LENGTH + |ELLIPSIS| + TAIL_LENGTH == 26
              && r[..HEAD_LENGTH] == line[..HEAD_LENGTH]
              && r[HEAD_LENGTH..HEAD_LENGTH + |ELLIPSIS|] == ELLIPSIS
              && r[HEAD_LENGTH + |ELLIPSIS|..] == line[|line| - TAIL_LENGTH..]
    ensures |r| < TRIM_THRESHOLD
  {
    if |line| < TRIM_THRESHOLD then line
    else line[0..HEAD_LENGTH] + ELLIPSIS + line[|line| - TAIL_LENGTH..]
  }

  /** Trimming is idempotent. */
  lemma TrimAddressIdempotent(line: string)
    ensures TrimAddress(TrimAddress(line)) == TrimAddress(line)
  {
  }

  /** The mDNS-announcing part of LinccLocationManager. */
  class LinccLocationManager {
    /** `mMdnsRecord` */
    var record: Record
    /** The calls received so far by the provider (`mZeroConf`). */
    var providerCalls: seq<ProviderCall>

    /**
     * Prepares the record with port 8033, the Hoccer service type and a client key
     * (a random UUID in the source, given here), then registers as the provider's listener.
     */
    constructor (clientKey: string)
      ensures record == NewRecord(MDNS_PORT, clientKey)
      ensures record.serviceType == "_hoccer._tcp.local." && record.port == 8033
      ensures providerCalls == [RegisterListener]
    {
      record := NewRecord(MDNS_PORT, clientKey);
      providerCalls := [RegisterListener];
    }

    /**
     * Once connected, names the record "Hoccer Client <client name>" and asks the
     * provider to register it; the client name comes from the linccer.
     */
    method ConnectedToService(clientName: string)
      modifies this
      ensures record == old(record).(name := Some(NAME_PREFIX + clientName))
      ensures providerCalls == old(providerCalls) + [RegisterService(record)]
    {
      record := record.(name := Some(NAME_PREFIX + clientName));
      providerCalls := providerCalls + [RegisterService(record)];
    }

    /** Peer reports are ignored by this component. */
    method ServiceUpdated(r: Record)
      ensures unchanged(this)
    {
    }

    /** Peer removals are ignored by this component. */
    method ServiceRemoved(r: Record)
      ensures unchanged(this)
    {
    }
  }
}
