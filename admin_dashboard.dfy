/**
 * The admin dashboard: one input per contract operation, and handlers that
 * issue the call, then set `loading`, `error`, `success` and the inputs
 * according to the outcome.
 */
module AdminDashboard {
  import opened Wrappers
  import opened Ledger
  import Text

  /** The `transferFrom` input group. */
  datatype TransferInput = TransferInput(from: string, to: string, amount: string)

  /** The `adminMintData` input group: comma-separated lists. */
  datatype MintInput = MintInput(recipients: string, amounts: string)

  /** Every text input of the dashboard. */
  datatype Inputs = Inputs(
    platformFee: string,
    feeCollector: string,
    userToVerify: string,
    userToInvalidate: string,
    listingToCancel: string,
    transferFrom: TransferInput,
    newOwner: string,
    adminMintData: MintInput,
    userProfileAddress: string)

  const EmptyInputs := Inputs("", "", "", "", "", TransferInput("", "", ""), "", MintInput("", ""), "")

  /** What `platformFee()`, `feeCollector()` and `paused()` answer. */
  datatype PlatformState = PlatformState(fee: nat, collector: Address, paused: bool)

  /** The profile as the dashboard shows it: amounts and dates already formatted. */
  datatype ProfileView = ProfileView(
    isVerified: bool,
    totalEnergyTraded: string,
    reputationScore: int,
    lastActivityTime: string,
    certificationIPFSHash: string,
    certificationTimestamp: string,
    certificationType: string,
    certificationValid: bool)

  /** The contract write a handler sends. */
  datatype AdminCall =
    | SetPlatformFee(fee: string)
    | VerifyUser(user: string)
    | InvalidateCertification(user: string)
    | CancelListing(listingId: string)
    | TransferFrom(from: string, to: string, amount: Wei)
    | TransferOwnership(newOwner: string)
    | Pause
    | Unpause
    | AdminMint(recipients: seq<string>, amounts: seq<Wei>)

  /** `.map(addr => addr.trim())` over the pieces of `recipients.split(',')`. */
  function ParseRecipients(pieces: seq<string>): seq<string> {
    seq(|pieces|, k requires 0 <= k < |pieces| => Text.Trim(pieces[k]))
  }

  /**
   * There is one recipient per comma plus one, none of them starting or
   * ending with white space, each the trimmed piece between commas.
   */
  lemma RecipientsSpec(s: string)
    ensures |ParseRecipients(Text.Split(s, ','))| == Text.Occurrences(s, ',') + 1
    ensures forall k :: 0 <= k < |ParseRecipients(Text.Split(s, ','))| ==>
      var a := ParseRecipients(Text.Split(s, ','))[k];
      && a == Text.Trim(Text.Split(s, ',')[k])
      && (|a| > 0 ==> !Text.IsSpace(a[0]) && !Text.IsSpace(a[|a| - 1]))
  {
  }

  /**
   * `amounts.split(',').map(amount => parseEther(amount.trim()))` on the split
   * pieces: one amount per piece, or `None` when `parseEther` throws on one.
   */
  function ParseAmounts(pieces: seq<string>, parseEther: string -> Option<Wei>): (r: Option<seq<Wei>>)
    ensures r.Some? <==> forall k :: 0 <= k < |pieces| ==> parseEther(Text.Trim(pieces[k])).Some?
    ensures r.Some? ==> |r.value| == |pieces|
    ensures r.Some? ==> forall k :: 0 <= k < |pieces| ==> Some(r.value[k]) == parseEther(Text.Trim(pieces[k]))
  {
    if pieces == [] then Some([])
    else
      match (parseEther(Text.Trim(pieces[0])), ParseAmounts(pieces[1..], parseEther))
      case (Some(a), Some(rest)) => Some([a] + rest)
      case _ => None
  }

  /** The call `handleAdminMint` sends, or `None` when an amount does not parse. */
  function MintCall(data: MintInput, parseEther: string -> Option<Wei>): Option<AdminCall> {
    match ParseAmounts(Text.Split(data.amounts, ','), parseEther)
    case None => None
    case Some(amounts) => Some(AdminMint(ParseRecipients(Text.Split(data.recipients, ',')), amounts))
  }

  /**
   * The two lists are split on their own: whenever every amount parses, the
   * call goes out with as many recipients as the first input has commas plus
   * one, and as many amounts as the second has, equal or not.
   */
  lemma MintListsSplitIndependently(data: MintInput, parseEther: string -> Option<Wei>)
    requires ParseAmounts(Text.Split(data.amounts, ','), parseEther).Some?
    ensures var call := MintCall(data, parseEther);
      && call.Some? && call.value.AdminMint?
      && |call.value.recipients| == Text.Occurrences(data.recipients, ',') + 1
      && |call.value.amounts| == Text.Occurrences(data.amounts, ',') + 1
  {
  }

  /** An amount that fails to parse means no call at all. */
  lemma UnparsedAmountMeansNoMint(data: MintInput, parseEther: string -> Option<Wei>, k: nat)
    requires k < |Text.Split(data.amounts, ',')|
    requires parseEther(Text.Trim(Text.Split(data.amounts, ',')[k])).None?
    ensures MintCall(data, parseEther).None?
  {
  }

  /** `contract[isPaused ? 'unpause' : 'pause']()`. */
  function PauseCall(isPaused: bool): (call: AdminCall)
    ensures call == Unpause <==> isPaused
    ensures call == Pause <==> !isPaused
  {
    if isPaused then Unpause else Pause
  }

  /** The messages of `handleTogglePause`, worded from the state before the toggle. */
  function PauseSuccessMessage(isPaused: bool): string {
    "Platform " + (if isPaused then "unpaused" else "paused") + " successfully"
  }

  function PauseErrorMessage(isPaused: bool): string {
    "Failed to " + (if isPaused then "unpause" else "pause") + " platform"
  }

  const FeeCollectorUnavailable := "setFeeCollector function not available in the contract"

  /** The dashboard's state. */
  class Dashboard {
    var inputs: Inputs
    var isPaused: bool
    var loading: bool
    var error: string
    var success: string
    var userProfile: Option<ProfileView>

    constructor()
      ensures inputs == EmptyInputs && !isPaused && !loading
      ensures error == "" && success == "" && userProfile == None
    {
      inputs := EmptyInputs;
      isPaused := false;
      loading := false;
      error := "";
      success := "";
      userProfile := None;
    }

    /** Typing into any input. */
    method SetInputs(i: Inputs)
      modifies this
      ensures inputs == i
      ensures isPaused == old(isPaused) && loading == old(loading) && error == old(error)
      ensures success == old(success) && userProfile == old(userProfile)
    {
      inputs := i;
    }

    /** `fetchPlatformState`: the three reads replace fee, collector and pause flag, or set the error. */
    method FetchPlatformState(state: Option<PlatformState>)
      modifies this
      ensures state.Some? ==> inputs == old(inputs).(platformFee := Text.NatToString(state.value.fee),
                                                    feeCollector := state.value.collector)
      ensures state.Some? ==> isPaused == state.value.paused && error == old(error)
      ensures state.None? ==> inputs == old(inputs) && isPaused == old(isPaused)
      ensures state.None? ==> error == "Failed to fetch platform state"
      ensures loading == old(loading) && success == old(success) && userProfile == old(userProfile)
    {
      if state.None? {
        error := "Failed to fetch platform state";
        return;
      }
      inputs := inputs.(platformFee := Text.NatToString(state.value.fee), feeCollector := state.value.collector);
      isPaused := state.value.paused;
    }

    /**
     * `handleUpdateFee`: sends the fee input; on success reports it and reads
     * the platform state again (`state`), on failure sets the error.
     */
    method HandleUpdateFee(ok: bool, state: Option<PlatformState>) returns (call: AdminCall)
      modifies this
      ensures call == SetPlatformFee(old(inputs.platformFee))
      ensures ok ==> success == "Platform fee updated successfully"
      ensures ok && state.Some? ==> inputs == old(inputs).(platformFee := Text.NatToString(state.value.fee),
                                                           feeCollector := state.value.collector)
      ensures ok && state.Some? ==> isPaused == state.value.paused && error == old(error)
      ensures ok && state.None? ==> inputs == old(inputs) && isPaused == old(isPaused)
      ensures ok && state.None? ==> error == "Failed to fetch platform state"
      ensures !ok ==> error == "Failed to update platform fee" && success == old(success)
      ensures !ok ==> inputs == old(inputs) && isPaused == old(isPaused)
      ensures !loading && userProfile == old(userProfile)
    {
      loading := true;
      call := SetPlatformFee(inputs.platformFee);
      if ok {
        success := "Platform fee updated successfully";
        FetchPlatformState(state);
      } else {
        error := "Failed to update platform fee";
      }
      loading := false;
    }

    /** `handleUpdateFeeCollector`: no contract call; it always reports that the function is missing. */
    method HandleUpdateFeeCollector()
      modifies this
      ensures error == FeeCollectorUnavailable && !loading
      ensures inputs == old(inputs) && isPaused == old(isPaused)
      ensures success == old(success) && userProfile == old(userProfile)
    {
      loading := true;
      error := FeeCollectorUnavailable;
      loading := false;
    }

    /** `handleVerifyUser`: clears its own input on success. */
    method HandleVerifyUser(ok: bool) returns (call: AdminCall)
      modifies this
      ensures call == VerifyUser(old(inputs.userToVerify))
      ensures ok ==> success == "User verified successfully" && error == old(error)
      ensures ok ==> inputs == old(inputs).(userToVerify := "")
      ensures !ok ==> error == "Failed to verify user" && success == old(success) && inputs == old(inputs)
      ensures !loading && isPaused == old(isPaused) && userProfile == old(userProfile)
    {
      loading := true;
      call := VerifyUser(inputs.userToVerify);
      if ok {
        success := "User verified successfully";
        inputs := inputs.(userToVerify := "");
      } else {
        error := "Failed to verify user";
      }
      loading := false;
    }

    /** `handleInvalidateCertification`: clears its own input on success. */
    method HandleInvalidateCertification(ok: bool) returns (call: AdminCall)
      modifies this
      ensures call == InvalidateCertification(old(inputs.userToInvalidate))
      ensures ok ==> success == "User certification invalidated successfully" && error == old(error)
      ensures ok ==> inputs == old(inputs).(userToInvalidate := "")
      ensures !ok ==> error == "Failed to invalidate user certification" && success == old(success)
      ensures !ok ==> inputs == old(inputs)
      ensures !loading && isPaused == old(isPaused) && userProfile == old(userProfile)
    {
      loading := true;
      call := InvalidateCertification(inputs.userToInvalidate);
      if ok {
        success := "User certification invalidated successfully";
        inputs := inputs.(userToInvalidate := "");
      } else {
        error := "Failed to invalidate user certification";
      }
      loading := false;
    }

    /** `handleCancelListing`: clears its own input on success. */
    method HandleCancelListing(ok: bool) returns (call: AdminCall)
      modifies this
      ensures call == CancelListing(old(inputs.listingToCancel))
      ensures ok ==> success == "Listing cancelled successfully" && error == old(error)
      ensures ok ==> inputs == old(inputs).(listingToCancel := "")
      ensures !ok ==> error == "Failed to cancel listing" && success == old(success) && inputs == old(inputs)
      ensures !loading && isPaused == old(isPaused) && userProfile == old(userProfile)
    {
      loading := true;
      call := CancelListing(inputs.listingToCancel);
      if ok {
        success := "Listing cancelled successfully";
        inputs := inputs.(listingToCancel := "");
      } else {
        error := "Failed to cancel listing";
      }
      loading := false;
    }

    /**
     * `handleTransferFrom`: an amount `parseEther` rejects means no call and the
     * error; otherwise the call goes out and, on success, the group is cleared.
     */
    method HandleTransferFrom(ok: bool, parseEther: string -> Option<Wei>) returns (call: Option<AdminCall>)
      modifies this
      ensures var t := old(inputs.transferFrom);
        call == if parseEther(t.amount).Some? then Some(TransferFrom(t.from, t.to, parseEther(t.amount).value)) else None
      ensures call.Some? && ok ==> success == "Tokens transferred successfully" && error == old(error)
      ensures call.Some? && ok ==> inputs == old(inputs).(transferFrom := TransferInput("", "", ""))
      ensures call.None? || !ok ==> error == "Failed to transfer tokens" && success == old(success)
      ensures call.None? || !ok ==> inputs == old(inputs)
      ensures !loading && isPaused == old(isPaused) && userProfile == old(userProfile)
    {
      loading := true;
      var t := inputs.transferFrom;
      var amount := parseEther(t.amount);
      if amount.None? {
        call := None;
        error := "Failed to transfer tokens";
      } else {
        call := Some(TransferFrom(t.from, t.to, amount.value));
        if ok {
          success := "Tokens transferred successfully";
          inputs := inputs.(transferFrom := TransferInput("", "", ""));
        } else {
          error := "Failed to transfer tokens";
        }
      }
      loading := false;
    }

    /** `handleTransferOwnership`: clears its own input on success. */
    method HandleTransferOwnership(ok: bool) returns (call: AdminCall)
      modifies this
      ensures call == TransferOwnership(old(inputs.newOwner))
      ensures ok ==> success == "Ownership transferred successfully" && error == old(error)
      ensures ok ==> inputs == old(inputs).(newOwner := "")
      ensures !ok ==> error == "Failed to transfer ownership" && success == old(success) && inputs == old(inputs)
      ensures !loading && isPaused == old(isPaused) && userProfile == old(userProfile)
    {
      loading := true;
      call := TransferOwnership(inputs.newOwner);
      if ok {
        success := "Ownership transferred successfully";
        inputs := inputs.(newOwner := "");
      } else {
        error := "Failed to transfer ownership";
      }
      loading := false;
    }

    /**
     * `handleTogglePause`: `unpause` when paused and `pause` otherwise; the
     * flag flips only on success, and both messages are worded from the old flag.
     */
    method HandleTogglePause(ok: bool) returns (call: AdminCall)
      modifies this
      ensures call == PauseCall(old(isPaused))
      ensures ok ==> isPaused == !old(isPaused) && success == PauseSuccessMessage(old(isPaused)) && error == old(error)
      ensures !ok ==> isPaused == old(isPaused) && error == PauseErrorMessage(old(isPaused)) && success == old(success)
      ensures !loading && inputs == old(inputs) && userProfile == old(userProfile)
    {
      loading := true;
      call := PauseCall(isPaused);
      if ok {
        var wasPaused := isPaused;
        isPaused := !isPaused;
        success := PauseSuccessMessage(wasPaused);
      } else {
        error := PauseErrorMessage(isPaused);
      }
      loading := false;
    }

    /**
     * `handleAdminMint`: the two lists are parsed; if an amount does not parse
     * no call is sent; on success both inputs are cleared.
     */
    method HandleAdminMint(ok: bool, parseEther: string -> Option<Wei>) returns (call: Option<AdminCall>)
      modifies this
      ensures call == MintCall(old(inputs.adminMintData), parseEther)
      ensures call.Some? && ok ==> success == "Admin mint successful" && error == old(error)
      ensures call.Some? && ok ==> inputs == old(inputs).(adminMintData := MintInput("", ""))
      ensures call.None? || !ok ==> error == "Failed to perform admin mint" && success == old(success)
      ensures call.None? || !ok ==> inputs == old(inputs)
      ensures !loading && isPaused == old(isPaused) && userProfile == old(userProfile)
    {
      loading := true;
      var data := inputs.adminMintData;
      var amounts := ParseAmounts(Text.Split(data.amounts, ','), parseEther);
      if amounts.None? {
        call := None;
        error := "Failed to perform admin mint";
        loading := false;
        return;
      }
      call := Some(AdminMint(ParseRecipients(Text.Split(data.recipients, ',')), amounts.value));
      if ok {
        success := "Admin mint successful";
        inputs := inputs.(adminMintData := MintInput("", ""));
      } else {
        error := "Failed to perform admin mint";
      }
      loading := false;
    }

    /** `handleGetUserProfile`: shows the formatted profile read for the address, or sets the error. */
    method HandleGetUserProfile(c: Chain, formatEther: Wei -> string, formatDate: int -> string)
      modifies this
      ensures var p := ReadProfile(c, old(inputs.userProfileAddress));
        && (p.Some? ==> userProfile == Some(View(p.value, formatEther, formatDate)) && error == old(error))
        && (p.None? ==> userProfile == old(userProfile) && error == "Failed to fetch user profile")
      ensures !loading && inputs == old(inputs) && isPaused == old(isPaused) && success == old(success)
    {
      loading := true;
      var p := ReadProfile(c, inputs.userProfileAddress);
      if p.Some? {
        userProfile := Some(View(p.value, formatEther, formatDate));
      } else {
        error := "Failed to fetch user profile";
      }
      loading := false;
    }
  }

  /** The record `handleGetUserProfile` stores. */
  function View(p: Profile, formatEther: Wei -> string, formatDate: int -> string): ProfileView {
    ProfileView(p.isVerified, formatEther(p.totalEnergyTraded), p.reputationScore,
                formatDate(p.lastActivityTime), p.certificationIPFSHash,
                formatDate(p.certificationTimestamp), p.certificationType, p.certificationValid)
  }
}
