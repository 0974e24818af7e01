/**
 * The user profile page: the signer's profile read once, and a dialog that
 * records a new certification and merges the certification fields read back.
 */
module UserProfile {
  import opened Wrappers
  import opened Ledger

  /** The profile shown before anything is read. */
  const DefaultProfile := Profile(false, 0, 0, 0, "", 0, "", false)

  /** The dialog's form (`newCertification`). */
  datatype CertForm = CertForm(ipfsHash: string, certType: string)

  const EmptyForm := CertForm("", "")

  /** The write `handleAddCertification` sends. */
  datatype CertCall = UpdateUserCertification(user: Address, ipfsHash: string, certType: string)

  /** The guard at the top of `handleAddCertification`: an empty field stops it. */
  predicate GuardRefuses(form: CertForm) {
    form.ipfsHash == "" || form.certType == ""
  }

  /** The `disabled` attribute of the Add button. */
  predicate AddDisabled(addingCert: bool, form: CertForm) {
    addingCert || form.ipfsHash == "" || form.certType == ""
  }

  /** When no add is running, the button is disabled exactly when the guard would refuse. */
  lemma AddDisabledMatchesGuard(addingCert: bool, form: CertForm)
    ensures AddDisabled(addingCert, form) <==> addingCert || GuardRefuses(form)
    ensures !addingCert ==> (AddDisabled(addingCert, form) <==> GuardRefuses(form))
  {
  }

  /** The functional update `{...prevProfile, certification...: updatedProfile.certification...}`. */
  function MergeCertification(prev: Profile, updated: Profile): (r: Profile)
    ensures r.isVerified == prev.isVerified && r.totalEnergyTraded == prev.totalEnergyTraded
    ensures r.reputationScore == prev.reputationScore && r.lastActivityTime == prev.lastActivityTime
    ensures r.certificationIPFSHash == updated.certificationIPFSHash
    ensures r.certificationTimestamp == updated.certificationTimestamp
    ensures r.certificationType == updated.certificationType
    ensures r.certificationValid == updated.certificationValid
  {
    prev.(certificationIPFSHash := updated.certificationIPFSHash,
          certificationTimestamp := updated.certificationTimestamp,
          certificationType := updated.certificationType,
          certificationValid := updated.certificationValid)
  }

  /** Merging the same read twice changes nothing more, and merging a profile's own fields is the identity. */
  lemma MergeIdempotent(prev: Profile, updated: Profile)
    ensures MergeCertification(MergeCertification(prev, updated), updated) == MergeCertification(prev, updated)
    ensures MergeCertification(prev, prev) == prev
  {
  }

  /** The page's state. */
  class Page {
    var profile: Profile
    var userAddress: Address
    var loading: bool
    var error: string
    var newCertification: CertForm
    var showAddCert: bool
    var addingCert: bool

    constructor()
      ensures profile == DefaultProfile && userAddress == "" && loading && error == ""
      ensures newCertification == EmptyForm && !showAddCert && !addingCert
    {
      profile := DefaultProfile;
      userAddress := "";
      loading := true;
      error := "";
      newCertification := EmptyForm;
      showAddCert := false;
      addingCert := false;
    }

    /**
     * `fetchUserProfile`. Without a contract only `loading` is cleared and the
     * default profile stays. Otherwise the signer's address (`signer`, `None`
     * when it cannot be obtained) is stored first, then its profile is read;
     * either failure sets the error. `loading` ends false in every case.
     */
    method FetchUserProfile(contract: Option<Chain>, signer: Option<Address>)
      modifies this
      ensures !loading
      ensures contract.None? ==> profile == old(profile) && userAddress == old(userAddress) && error == old(error)
      ensures contract.Some? && signer.None? ==>
        profile == old(profile) && userAddress == old(userAddress) && error == "Error fetching profile data"
      ensures contract.Some? && signer.Some? ==> userAddress == signer.value
      ensures contract.Some? && signer.Some? ==>
        var p := ReadProfile(contract.value, signer.value);
        && (p.Some? ==> profile == p.value && error == old(error))
        && (p.None? ==> profile == old(profile) && error == "Error fetching profile data")
      ensures newCertification == old(newCertification) && showAddCert == old(showAddCert)
      ensures addingCert == old(addingCert)
    {
      if contract.None? {
        loading := false;
        return;
      }
      if signer.None? {
        error := "Error fetching profile data";
        loading := false;
        return;
      }
      userAddress := signer.value;
      var p := ReadProfile(contract.value, userAddress);
      if p.None? {
        error := "Error fetching profile data";
        loading := false;
        return;
      }
      profile := p.value;
      loading := false;
    }

    /** Typing into the dialog. */
    method SetNewCertification(form: CertForm)
      modifies this
      ensures newCertification == form
      ensures profile == old(profile) && userAddress == old(userAddress) && loading == old(loading)
      ensures error == old(error) && showAddCert == old(showAddCert) && addingCert == old(addingCert)
    {
      newCertification := form;
    }

    /** Opening or closing the dialog. */
    method SetShowAddCert(show: bool)
      modifies this
      ensures showAddCert == show
      ensures profile == old(profile) && userAddress == old(userAddress) && loading == old(loading)
      ensures error == old(error) && newCertification == old(newCertification) && addingCert == old(addingCert)
    {
      showAddCert := show;
    }

    /**
     * `handleAddCertification`. An empty field stops it before anything
     * happens. Otherwise the update is sent (if there is a contract to send it
     * to); when it is confirmed (`ok`) and the profile can be read back from
     * `after`, the four certification fields are merged, the form is emptied
     * and the dialog closed; any failure sets the error and keeps the rest.
     */
    method HandleAddCertification(hasContract: bool, ok: bool, after: Chain) returns (call: Option<CertCall>)
      modifies this
      ensures GuardRefuses(old(newCertification)) ==>
        call.None? && profile == old(profile) && error == old(error) && addingCert == old(addingCert)
        && newCertification == old(newCertification) && showAddCert == old(showAddCert)
      ensures !GuardRefuses(old(newCertification)) ==>
        && !addingCert
        && call == (if hasContract then Some(UpdateUserCertification(userAddress,
                      old(newCertification).ipfsHash, old(newCertification).certType)) else None)
      ensures !GuardRefuses(old(newCertification)) ==>
        var read := ReadProfile(after, userAddress);
        if hasContract && ok && read.Some? then
          && profile == MergeCertification(old(profile), read.value)
          && newCertification == EmptyForm && !showAddCert && error == old(error)
        else
          && profile == old(profile) && error == "Failed to update certification"
          && newCertification == old(newCertification) && showAddCert == old(showAddCert)
      ensures userAddress == old(userAddress) && loading == old(loading)
    {
      if GuardRefuses(newCertification) {
        return None;
      }
      addingCert := true;
      if !hasContract {
        call := None;
        error := "Failed to update certification";
      } else {
        call := Some(UpdateUserCertification(userAddress, newCertification.ipfsHash, newCertification.certType));
        var read := ReadProfile(after, userAddress);
        if ok && read.Some? {
          profile := MergeCertification(profile, read.value);
          newCertification := EmptyForm;
          showAddCert := false;
        } else {
          error := "Failed to update certification";
        }
      }
      addingCert := false;
    }
  }
}
