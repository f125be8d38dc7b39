/**
 * The three blocklist rules behind the `isolate`, `release` and `toggle_block`
 * actions. The web client and the API server each implement them; both
 * implementations are modelled on top of these definitions.
 */
module BlocklistRules {
  import opened DeviceTypes

  /** Blocks every category except `safesearch`, which keeps its value. */
  function Isolated(b: BlockList): (r: BlockList)
    ensures forall f :: f != Safesearch ==> Get(r, f)
    ensures r.safesearch == b.safesearch
  {
    BlockList(true, true, true, true, true, true, true, true, true, true, true, true, b.safesearch)
  }

  /** Unblocks every category except `safesearch`, and turns `safesearch` on. */
  function Released(b: BlockList): (r: BlockList)
    ensures forall f :: Get(r, f) <==> f == Safesearch
  {
    BlockList(false, false, false, false, false, false, false, false, false, false, false, false, true)
  }

  /** Flips the flag `f` and leaves every other flag as it was. */
  function Toggled(b: BlockList, f: Flag): (r: BlockList)
    ensures Get(r, f) == !Get(b, f)
    ensures forall g :: g != f ==> Get(r, g) == Get(b, g)
  {
    SetFrame(b, f, !Get(b, f));
    Set(b, f, !Get(b, f))
  }

  /** Isolating twice is the same as isolating once. */
  lemma IsolateIdempotent(b: BlockList)
    ensures Isolated(Isolated(b)) == Isolated(b)
  {
  }

  /** Releasing twice is the same as releasing once. */
  lemma ReleaseIdempotent(b: BlockList)
    ensures Released(Released(b)) == Released(b)
  {
  }

  /** Toggling the same flag twice restores the blocklist. */
  lemma ToggleInvolution(b: BlockList, f: Flag)
    ensures Toggled(Toggled(b, f), f) == b
  {
  }
}
