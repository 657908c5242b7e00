/** The account tier shown in the account dialog, derived from the account's
    capability tags, and the canonical tags written back for a chosen tier
    (src/components/AccountModal.tsx:37-47, 56-71). */
module AccountTier {
  import opened Basics

  /** `'' | 'Normal' | 'Pro' | 'Max'`; `Unselected` is the empty choice. */
  datatype Tier = Unselected | Normal | Pro | Max

  const ChatTag: string := "chat"
  const ProTag: string := "claude_pro"
  const MaxTag: string := "claude_max"

  /** `account.capabilities || []`: a missing list counts as empty. */
  function CapabilityList(capabilities: Option<seq<string>>): seq<string> {
    capabilities.GetOr([])
  }

  /** The tier the dialog preselects: none for no tags, otherwise the max tag wins over
      the pro tag, and any other non-empty list is Normal. */
  function TierOf(capabilities: Option<seq<string>>): (t: Tier)
    ensures t == Unselected <==> |CapabilityList(capabilities)| == 0
    ensures t == Max <==> MaxTag in CapabilityList(capabilities)
    ensures t == Pro <==> ProTag in CapabilityList(capabilities) && MaxTag !in CapabilityList(capabilities)
    ensures t == Normal <==>
      |CapabilityList(capabilities)| > 0 && ProTag !in CapabilityList(capabilities) && MaxTag !in CapabilityList(capabilities)
  {
    var caps := CapabilityList(capabilities);
    if |caps| == 0 then Unselected
    else if MaxTag in caps then Max
    else if ProTag in caps then Pro
    else Normal
  }

  /** The capability list sent for a tier; `None` (undefined) leaves the account's
      capabilities as they are. Every written list starts with the chat tag and holds
      at most one tier tag. */
  function Capabilities(t: Tier): (r: Option<seq<string>>)
    ensures r.None? <==> t == Unselected
    ensures r.Some? ==> |r.value| > 0 && r.value[0] == ChatTag
    ensures r.Some? ==> !(ProTag in r.value && MaxTag in r.value)
  {
    match t
    case Unselected => None
    case Normal => Some([ChatTag])
    case Pro => Some([ChatTag, ProTag])
    case Max => Some([ChatTag, MaxTag])
  }

  /** The lists written for each tier: chat alone for Normal, chat and the tier's own
      tag for Pro and Max. */
  lemma CapabilitiesTable()
    ensures Capabilities(Normal) == Some(["chat"])
    ensures Capabilities(Pro) == Some(["chat", "claude_pro"])
    ensures Capabilities(Max) == Some(["chat", "claude_max"])
  {
  }

  /** Writing a tier and reading it back gives the same tier, for all four choices. */
  lemma TierRoundTrip(t: Tier)
    ensures TierOf(Capabilities(t)) == t
  {
  }

  /** A list carrying both tier tags resolves to Max, wherever the tags sit. */
  lemma MaxWins(capabilities: seq<string>)
    requires ProTag in capabilities && MaxTag in capabilities
    ensures TierOf(Some(capabilities)) == Max
  {
  }

  /** Rewriting a tier is canonical: once written, re-deriving and re-writing the tier
      produces the same list. */
  lemma CanonicalIsStable(capabilities: Option<seq<string>>)
    ensures Capabilities(TierOf(Capabilities(TierOf(capabilities)))) == Capabilities(TierOf(capabilities))
  {
    TierRoundTrip(TierOf(capabilities));
  }

  /** The mapping is lossy: a list carrying any tag the tiers do not know is never
      written back as it was. */
  lemma UnknownTagsAreDropped(capabilities: seq<string>, tag: string)
    requires tag in capabilities && tag != ChatTag && tag != ProTag && tag != MaxTag
    ensures Capabilities(TierOf(Some(capabilities))) != Some(capabilities)
  {
  }
}
