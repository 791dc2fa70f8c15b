/** The loopback listener's port and the redirect URI of a browser flow
    (internal/oauth/listener.go, internal/oauth/coordinator.go). */
module Loopback {
  const PORT_MIN := 1455
  const PORT_MAX := 1455
  const DEFAULT_REDIRECT := "http://localhost:1455/auth/callback"

  function Decimal(n: nat): string {
    if n < 10 then [('0' as int + n) as char] else Decimal(n / 10) + [('0' as int + n % 10) as char]
  }

  /** loopbackCallbackURL */
  function CallbackURL(port: int): string {
    if port < PORT_MIN || port > PORT_MAX then DEFAULT_REDIRECT
    else "http://localhost:" + Decimal(port) + "/auth/callback"
  }

  /** BindLoopback: the first port of the range that some address can be bound on; 0 when none. */
  method BindLoopback(canBind: int -> bool) returns (bound: bool, port: int)
    ensures bound <==> exists p :: PORT_MIN <= p <= PORT_MAX && canBind(p)
    ensures bound ==> PORT_MIN <= port <= PORT_MAX && canBind(port)
                      && forall p :: PORT_MIN <= p < port ==> !canBind(p)
    ensures !bound ==> port == 0
  {
    port := PORT_MIN;
    while port <= PORT_MAX
      invariant PORT_MIN <= port <= PORT_MAX + 1
      invariant forall p :: PORT_MIN <= p < port ==> !canBind(p)
    {
      if canBind(port) { return true, port; }
      port := port + 1;
    }
    return false, 0;
  }

  /** setProviderRedirectURI succeeds; canSet: the provider accepts another redirect URI. */
  predicate RedirectAccepted(canSet: bool, url: string) { canSet || url == DEFAULT_REDIRECT }

  /** Whatever port the listener got, the callback URL is the default one, so no provider refuses
      it: StartBrowser never releases a flow that nothing has consumed. */
  lemma RedirectNeverRefused(port: int, canSet: bool)
    requires port == 0 || PORT_MIN <= port <= PORT_MAX
    ensures CallbackURL(port) == DEFAULT_REDIRECT && RedirectAccepted(canSet, CallbackURL(port))
  {
    if port != 0 {
      assert Decimal(1) == "1" && Decimal(14) == "14";
      assert Decimal(145) == "145";
      assert Decimal(1455) == "1455";
      assert "http://localhost:" + "1455" + "/auth/callback" == DEFAULT_REDIRECT;
    }
  }
}
