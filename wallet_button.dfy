/**
 * The wallet label of the navigation bar: a shortened address, or
 * "Not Connected" when there is no account. An absent account is the empty string.
 */
module WalletButton {
  import Text

  const NotConnected := "Not Connected"

  /** `` account ? `${account.slice(0, 6)}...${account.slice(-4)}` : 'Not Connected' ``. */
  function Label(account: string): string {
    if account == "" then NotConnected
    else Text.SliceFront(account, 6) + "..." + Text.SliceBack(account, 4)
  }

  /** Without an account the button shows the placeholder. */
  lemma NoAccountLabel()
    ensures Label("") == NotConnected
  {
  }

  /**
   * An account of ten characters or more shows as exactly 13 characters: its
   * first six, three dots, and its last four.
   */
  lemma LongAccountLabel(account: string)
    requires |account| >= 10
    ensures var l := Label(account);
      && |l| == 13
      && l[..6] == account[..6]
      && l[6..9] == "..."
      && l[9..] == account[|account| - 4..]
  {
  }

  /** A shorter account is shown whole on both sides of the dots, since both slices stop at its ends. */
  lemma ShortAccountLabel(account: string)
    requires 0 < |account| < 4
    ensures Label(account) == account + "..." + account
  {
  }

  /** In general the label is the first `min(6, n)` and last `min(4, n)` characters around the dots. */
  lemma LabelLength(account: string)
    requires account != ""
    ensures |Label(account)| == (if |account| < 6 then |account| else 6) + 3 + (if |account| < 4 then |account| else 4)
  {
  }

  /** No connected account is ever shown as "Not Connected": every label of an account has a dot. */
  lemma LabelOfAccountIsNotPlaceholder(account: string)
    requires account != ""
    ensures Label(account) != NotConnected
  {
    var front := Text.SliceFront(account, 6);
    assert Label(account)[|front|] == '.';
    assert '.' !in NotConnected;
  }
}
