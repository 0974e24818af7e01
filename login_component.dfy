/**
 * The login card: connect a wallet, sign a session message and authenticate
 * with the contract, check an existing session, log out, and show a toast.
 * An absent wallet address is the empty string. The random session token, the
 * clock, the network id, the wallet's signature and the contract's answers are
 * parameters.
 */
module LoginComponent {
  import opened Wrappers
  import Text
  import WalletButton

  const Mainnet: int := 1
  const Sepolia: int := 11155111

  /** The networks `handleLogin` accepts. */
  predicate SupportedChain(chainId: int) {
    chainId == Mainnet || chainId == Sepolia
  }

  /** The JSON message handed to the wallet to sign; its `chainId` is always 1. */
  datatype LoginMessage = LoginMessage(address: string, chainId: int, sessionToken: string, timestamp: int)

  /** `contract.call("authenticate", [signature, newSessionToken])`. */
  datatype AuthCall = Authenticate(signature: string, sessionToken: string)

  datatype Toast = Toast(title: string, message: string, isError: bool)

  /** Which of the three panels the card shows. */
  datatype RenderMode = Connect | Sign | Logout

  /**
   * The panel: the connect button without an address, the sign button with an
   * address but no session, the logout button with both.
   */
  function Mode(address: string, isAuthenticated: bool): (m: RenderMode)
    ensures m == Connect <==> address == ""
    ensures m == Sign <==> address != "" && !isAuthenticated
    ensures m == Logout <==> address != "" && isAuthenticated
  {
    if address == "" then Connect
    else if !isAuthenticated then Sign
    else Logout
  }

  /** The shortened checksummed address: its first six characters, three dots, its last four. */
  function ShortAddress(checksummed: string): string {
    Text.SliceFront(checksummed, 6) + "..." + Text.SliceBack(checksummed, 4)
  }

  /** The card shortens an address exactly as the navigation bar's wallet button does. */
  lemma ShortAddressIsWalletLabel(checksummed: string)
    requires checksummed != ""
    ensures ShortAddress(checksummed) == WalletButton.Label(checksummed)
  {
  }

  /**
   * The status line above the button: none on the connect panel, otherwise
   * "Wallet connected: " or "Authenticated as " and the shortened checksummed
   * address (`getAddress`).
   */
  function Banner(address: string, isAuthenticated: bool, getAddress: string -> string): (b: Option<string>)
    ensures b.None? <==> Mode(address, isAuthenticated) == Connect
    ensures Mode(address, isAuthenticated) == Sign ==>
      b == Some("Wallet connected: " + ShortAddress(getAddress(address)))
    ensures Mode(address, isAuthenticated) == Logout ==>
      b == Some("Authenticated as " + ShortAddress(getAddress(address)))
  {
    match Mode(address, isAuthenticated)
    case Connect => None
    case Sign => Some("Wallet connected: " + ShortAddress(getAddress(address)))
    case Logout => Some("Authenticated as " + ShortAddress(getAddress(address)))
  }

  /** The component's state, with the wallet address the wallet hook reports. */
  class Login {
    var address: string
    var isAuthenticated: bool
    var sessionToken: string
    var showToast: bool
    var toast: Toast

    /** Not authenticated, no token, no toast. */
    constructor(address: string)
      ensures this.address == address
      ensures !isAuthenticated && sessionToken == "" && !showToast
      ensures toast == Toast("", "", false)
    {
      this.address := address;
      isAuthenticated := false;
      sessionToken := "";
      showToast := false;
      toast := Toast("", "", false);
    }

    /**
     * `checkSession`: the contract's answer to `isSessionValid(address)`, or
     * false when the call fails (`None`).
     */
    method CheckSession(isValid: Option<bool>)
      modifies this
      ensures isAuthenticated == isValid.GetOr(false)
      ensures isValid.None? ==> !isAuthenticated
      ensures address == old(address) && sessionToken == old(sessionToken)
      ensures showToast == old(showToast) && toast == old(toast)
    {
      isAuthenticated := isValid.GetOr(false);
    }

    /**
     * A new address from the wallet and the effect it runs: without an address
     * the session is dropped, with one the session is checked.
     */
    method ChangeAddress(newAddress: string, isValid: Option<bool>)
      modifies this
      ensures address == newAddress
      ensures newAddress == "" ==> !isAuthenticated && Mode(address, isAuthenticated) == Connect
      ensures newAddress != "" ==> isAuthenticated == isValid.GetOr(false)
      ensures sessionToken == old(sessionToken) && showToast == old(showToast) && toast == old(toast)
    {
      address := newAddress;
      if address != "" {
        CheckSession(isValid);
      } else {
        isAuthenticated := false;
      }
    }

    /** `showNotification`: the toast's contents, made visible. */
    method ShowNotification(title: string, message: string, isError: bool)
      modifies this
      ensures toast == Toast(title, message, isError) && showToast
      ensures address == old(address) && isAuthenticated == old(isAuthenticated)
      ensures sessionToken == old(sessionToken)
    {
      toast := Toast(title, message, isError);
      showToast := true;
    }

    /** The timer set by `showNotification` running out. */
    method DismissToast()
      modifies this
      ensures !showToast
      ensures toast == old(toast) && address == old(address)
      ensures isAuthenticated == old(isAuthenticated) && sessionToken == old(sessionToken)
    {
      showToast := false;
    }

    /**
     * `handleLogin`: the new token is stored first; then the network
     * (`chainId`, `None` when it cannot be read) is checked, and only on
     * Mainnet or Sepolia is the message signed (`signature`, `None` when the
     * wallet refuses) and `authenticate` called. Nothing here sets
     * `isAuthenticated`.
     */
    method HandleLogin(newToken: string, now: int, chainId: Option<int>, signature: Option<string>)
      returns (signed: Option<LoginMessage>, call: Option<AuthCall>)
      modifies this
      ensures sessionToken == newToken
      ensures signed.Some? <==> chainId.Some? && SupportedChain(chainId.value)
      ensures signed.Some? ==> signed.value == LoginMessage(address, 1, newToken, now)
      ensures call.Some? <==> signed.Some? && signature.Some?
      ensures call.Some? ==> call.value == Authenticate(signature.value, newToken)
      ensures isAuthenticated == old(isAuthenticated) && address == old(address)
      ensures Mode(address, isAuthenticated) == old(Mode(address, isAuthenticated))
      ensures showToast == old(showToast) && toast == old(toast)
    {
      sessionToken := newToken;
      var message := LoginMessage(address, 1, newToken, now);
      if chainId.None? || !SupportedChain(chainId.value) {
        return None, None;
      }
      signed := Some(message);
      if signature.None? {
        return signed, None;
      }
      call := Some(Authenticate(signature.value, newToken));
    }

    /**
     * `handleLogout`: `revokeSession` and then the wallet disconnect; only
     * when both succeed is the session cleared. The result says whether the
     * disconnect was asked for. Either failure shows an error toast with the
     * failure's message and keeps the session state.
     */
    method HandleLogout(revoked: bool, disconnected: bool, errorMessage: string) returns (disconnectRequested: bool)
      modifies this
      ensures disconnectRequested == revoked
      ensures revoked && disconnected ==>
        && !isAuthenticated && sessionToken == "" && Mode(address, isAuthenticated) != Logout
        && toast == Toast("Logged out successfully", "Your session has been ended", false)
      ensures !(revoked && disconnected) ==>
        && isAuthenticated == old(isAuthenticated) && sessionToken == old(sessionToken)
        && toast == Toast("Logout failed", errorMessage, true)
      ensures showToast && address == old(address)
    {
      disconnectRequested := revoked;
      if !revoked || !disconnected {
        ShowNotification("Logout failed", errorMessage, true);
        return;
      }
      isAuthenticated := false;
      sessionToken := "";
      ShowNotification("Logged out successfully", "Your session has been ended", false);
    }
  }
}
