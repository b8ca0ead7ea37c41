/** How a configured number of subscriptions becomes a number of channels and an admission limit. */
module TopicsConfig {
  import opened ClientLedger

  type Uint32 = n: int | 0 <= n < 0x1_0000_0000

  const DEFAULT_STREAM_CHANNELS: Uint32 := 4

  /** WithMaxSubscriptions: one stream channel for every 100 subscriptions, rounded up. */
  function WithMaxSubscriptions(maxSubscriptions: Uint32): Uint32 {
    (maxSubscriptions + 99) / 100
  }

  /** newPubSubClient: an unset number of stream channels means the default. */
  function StreamChannels(configured: Uint32): Uint32 {
    if configured > 0 then configured else DEFAULT_STREAM_CHANNELS
  }

  /**
   The limit of a client configured for m subscriptions covers them, with fewer than 100 to spare, exactly when m is at
   most 4294967200. Above that the 32-bit product wraps, and the client admits four streams. Zero means the default.
   */
  lemma CapacityCoversConfiguration(m: Uint32)
    ensures var limit := Limit(StreamChannels(WithMaxSubscriptions(m)));
      && (m <= limit <==> m <= 4294967200)
      && (1 <= m <= 4294967200 ==> limit < m + 100)
      && (m > 4294967200 ==> limit == 4)
      && (m == 0 ==> limit == 400)
  {
    var n := WithMaxSubscriptions(m);
    assert 100 * n - 100 < m <= 100 * n || m == 0;
    if m > 4294967200 {
      assert n == 42949673;
    }
  }
}
