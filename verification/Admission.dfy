/** The single entry gate of modules/comment/comment_auto_reply.py: everything that
    process_comment_event looks at before it touches the event store. */
module Admission {
  import opened Wrappers

  datatype TargetState = PendingBaseline | Active | Paused | Invalid
  datatype Mode = Disabled | Shadow | Enforce

  /** `config` is None when the campaign file is unreadable; `target` is None when the lookup
      raised, Some(None) when the media has no poll-target row. */
  datatype Circumstances = Circumstances(
    media: string,
    config: Option<set<string>>,
    target: Option<Option<TargetState>>,
    gating: bool,
    mode: Mode,
    campaignPost: bool,
    handlersRegistered: bool,
    cipherVerified: bool,
    preflightOk: bool)

  datatype Entry = Reject | GoLegacy | Observe | Claim

  predicate Blocked(s: Circumstances) {
    match s.config
    case None => true
    case Some(campaign) =>
      match s.target
      case None => true
      case Some(Some(state)) => s.media !in campaign || !state.Active?
      case Some(None) => s.media in campaign && s.gating
  }

  function Admit(s: Circumstances): Entry {
    if Blocked(s) then Reject
    else match s.mode
         case Disabled => GoLegacy
         case Shadow => Observe
         case Enforce =>
           if !s.campaignPost then GoLegacy
           else if s.handlersRegistered && s.cipherVerified && s.preflightOk then Claim
           else Reject
  }

  /** A media the state machine knows about is let through only while it is ACTIVE and in the
      campaign file as it reads at this moment, whatever the flags say; one it does not know, unless it is
      a campaign media and gating is on; with an unreadable file or a failing lookup nothing is. */
  predicate LetThrough(s: Circumstances) {
    && s.config.Some? && s.target.Some?
    && (s.target.value.Some? ==> s.target.value.value.Active? && s.media in s.config.value)
    && (s.target.value.None? && s.gating ==> s.media !in s.config.value)
  }

  /** Exactly who may be let in, and how: claimed in enforce mode on a campaign post with everything in
      place, past the store in every other mode or post, observed in shadow mode. */
  lemma KnownMediaNeedsActive(s: Circumstances)
    ensures !Admit(s).Reject? ==> LetThrough(s)
    ensures Admit(s).Claim? <==> LetThrough(s) && s.mode.Enforce? && s.campaignPost && s.handlersRegistered && s.cipherVerified && s.preflightOk
    ensures Admit(s).Observe? <==> LetThrough(s) && s.mode.Shadow?
    ensures Admit(s).GoLegacy? <==> LetThrough(s) && (s.mode.Disabled? || (s.mode.Enforce? && !s.campaignPost))
  {
  }
}
