/**
  The token endpoint `generate_voice_call_token`: an access token for the
  caller-supplied identity carrying a voice grant, a video grant and, when a
  chat service is configured, a chat grant.

  The token is modelled by the claims it is built from; the JWT encoding and
  signature that `to_jwt` produces from them with the API secret are not.
*/
module VoiceToken {
  import opened Wrappers

  /** The provider settings the endpoint reads; the chat service SID is optional. */
  datatype TwilioSettings = TwilioSettings(
    accountSid: string,
    apiKey: string,
    apiSecret: string,
    twimlApplicationSid: string,
    chatServiceSid: Option<string>)

  datatype Grant =
    | VoiceGrant(incomingAllow: bool, outgoingApplicationSid: string)
    | VideoGrant
    | ChatGrant(serviceSid: string)

  datatype GrantKind = VoiceKind | VideoKind | ChatKind

  /** `AccessToken(account_sid, api_key, api_secret, identity=...)` with the grants added to it, in order. */
  datatype AccessToken = AccessToken(
    accountSid: string,
    signingKeySid: string,
    secret: string,
    identity: string,
    grants: seq<Grant>)

  /** The JSON body `{"identity": ..., "token": ...}`. */
  datatype TokenResponse = TokenResponse(identity: string, token: AccessToken)

  /** Python's truth test on the optional chat service SID: present and non-empty. */
  predicate ChatConfigured(settings: TwilioSettings) {
    settings.chatServiceSid.Some? && settings.chatServiceSid.value != ""
  }

  function KindOf(g: Grant): (k: GrantKind) {
    match g
    case VoiceGrant(_, _) => VoiceKind
    case VideoGrant => VideoKind
    case ChatGrant(_) => ChatKind
  }

  /** The kinds of grant a token carries. */
  function GrantKinds(grants: seq<Grant>): (ks: set<GrantKind>)
    ensures forall k :: k in ks <==> exists i :: 0 <= i < |grants| && KindOf(grants[i]) == k
    decreases |grants|
  {
    if grants == [] then {} else {KindOf(grants[0])} + GrantKinds(grants[1..])
  }

  function GenerateVoiceCallToken(settings: TwilioSettings, identity: string): (r: TokenResponse)
    // The identity is echoed unchanged and is the token's identity.
    ensures r.identity == identity && r.token.identity == identity
    // The token is built from the configured account and key pair.
    ensures r.token.accountSid == settings.accountSid
    ensures r.token.signingKeySid == settings.apiKey && r.token.secret == settings.apiSecret
    // Exactly two grants, or three when a chat service is configured: always an
    // incoming-allowed voice grant to the configured TwiML application, then a video grant.
    ensures |r.token.grants| == if ChatConfigured(settings) then 3 else 2
    ensures r.token.grants[0] == VoiceGrant(true, settings.twimlApplicationSid)
    ensures r.token.grants[1] == VideoGrant
    // A chat grant with the configured service SID exactly when that SID is truthy.
    ensures ChatConfigured(settings) ==> r.token.grants[2] == ChatGrant(settings.chatServiceSid.value)
  {
    var voice := VoiceGrant(true, settings.twimlApplicationSid);
    var base := [voice, VideoGrant];
    var grants := if ChatConfigured(settings) then base + [ChatGrant(settings.chatServiceSid.value)] else base;
    TokenResponse(identity, AccessToken(settings.accountSid, settings.apiKey, settings.apiSecret, identity, grants))
  }

  /** The set of grant kinds is {voice, video}, plus chat exactly when a chat service is configured. */
  lemma GrantSetComposition(settings: TwilioSettings, identity: string)
    ensures GrantKinds(GenerateVoiceCallToken(settings, identity).token.grants) ==
            if ChatConfigured(settings) then {VoiceKind, VideoKind, ChatKind} else {VoiceKind, VideoKind}
  {
  }

  /** Each grant appears once: no two grants of a token are of the same kind. */
  lemma GrantKindsDistinct(settings: TwilioSettings, identity: string, i: nat, j: nat)
    requires i < j < |GenerateVoiceCallToken(settings, identity).token.grants|
    ensures var gs := GenerateVoiceCallToken(settings, identity).token.grants;
      KindOf(gs[i]) != KindOf(gs[j])
  {
  }

  /** The grants do not depend on the identity: only the echoed identity differs between two callers. */
  lemma GrantsIndependentOfIdentity(settings: TwilioSettings, a: string, b: string)
    ensures GenerateVoiceCallToken(settings, a).token.grants == GenerateVoiceCallToken(settings, b).token.grants
  {
  }
}
