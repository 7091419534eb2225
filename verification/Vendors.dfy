/** Vendor onboarding, verification and activation: two coupled status machines. */
module Vendors {
  import opened Common
  import opened Store

  predicate HasVendor(vendors: seq<Vendor>, user: nat) {
    exists i :: 0 <= i < |vendors| && vendors[i].user == user
  }

  function CreateForUserSpec(t: Tables, user: nat): (Tables, Outcome) {
    if HasVendor(t.vendors, user) then (t, Failed(Conflict))
    else (t.(vendors := t.vendors + [Vendor(user, AccountPending, Unverified)]), Done)
  }

  function AllowedFrom(target: Verification): set<Verification> {
    match target
    case UnderReview => {Unverified}
    case Verified => {UnderReview}
    case VerificationRejected => {Unverified, UnderReview}
    case Unverified => {}
  }

  /** The conditional `updateMany`, given the status `from` that an earlier read returned. */
  function CommitVerificationSpec(t: Tables, vendor: nat, from: Verification, to: Verification): (Tables, Outcome) {
    if vendor < |t.vendors| && t.vendors[vendor].verification == from
    then (t.(vendors := t.vendors[vendor := t.vendors[vendor].(verification := to)]), Done)
    else (t, Failed(Conflict))
  }

  function VerifySpec(t: Tables, vendor: nat, to: Verification): (Tables, Outcome) {
    if vendor >= |t.vendors| then (t, Failed(NotFound))
    else if t.vendors[vendor].verification !in AllowedFrom(to) then (t, Failed(Conflict))
    else CommitVerificationSpec(t, vendor, t.vendors[vendor].verification, to)
  }

  function CommitActivationSpec(t: Tables, vendor: nat): (Tables, Outcome) {
    if vendor < |t.vendors| && t.vendors[vendor].status == AccountPending && t.vendors[vendor].verification == Verified
    then (t.(vendors := t.vendors[vendor := t.vendors[vendor].(status := AccountActive)]), Done)
    else (t, Failed(Conflict))
  }

  function ActivateSpec(t: Tables, vendor: nat): (Tables, Outcome) {
    if vendor >= |t.vendors| then (t, Failed(NotFound))
    else CommitActivationSpec(t, vendor)
  }

  method CreateForUser(db: Database, user: nat) returns (r: Outcome)
    modifies db
    ensures (db.Now(), r) == CreateForUserSpec(old(db.Now()), user)
  {
    if HasVendor(db.vendors, user) {
      return Failed(Conflict);
    }
    db.vendors := db.vendors + [Vendor(user, AccountPending, Unverified)];
    r := Done;
  }

  method CommitVerification(db: Database, vendor: nat, from: Verification, to: Verification) returns (r: Outcome)
    modifies db
    ensures (db.Now(), r) == CommitVerificationSpec(old(db.Now()), vendor, from, to)
  {
    if vendor < |db.vendors| && db.vendors[vendor].verification == from {
      db.vendors := db.vendors[vendor := db.vendors[vendor].(verification := to)];
      return Done;
    }
    r := Failed(Conflict);
  }

  method Verify(db: Database, vendor: nat, to: Verification) returns (r: Outcome)
    modifies db
    ensures (db.Now(), r) == VerifySpec(old(db.Now()), vendor, to)
  {
    if vendor >= |db.vendors| {
      return Failed(NotFound);
    }
    var read := db.vendors[vendor];
    if read.verification !in AllowedFrom(to) {
      return Failed(Conflict);
    }
    r := CommitVerification(db, vendor, read.verification, to);
  }

  method Activate(db: Database, vendor: nat) returns (r: Outcome)
    modifies db
    ensures (db.Now(), r) == ActivateSpec(old(db.Now()), vendor)
  {
    if vendor >= |db.vendors| {
      return Failed(NotFound);
    }
    var read := db.vendors[vendor];
    if read.status != AccountPending || read.verification != Verified {
      return Failed(Conflict);
    }
    db.vendors := db.vendors[vendor := read.(status := AccountActive)];
    r := Done;
  }

  // ------------------------------------------------------------------------------------------

  /** At most one vendor per user, and a vendor that can trade has been verified. */
  ghost predicate VendorsOk(vendors: seq<Vendor>) {
    && (forall i, j :: 0 <= i < j < |vendors| ==> vendors[i].user != vendors[j].user)
    && (forall i :: 0 <= i < |vendors| && vendors[i].status == AccountActive ==> vendors[i].verification == Verified)
  }

  /** ACTIVE and VERIFIED: the vendor may receive orders. */
  predicate Trading(vendors: seq<Vendor>, v: nat) {
    v < |vendors| && vendors[v].status == AccountActive && vendors[v].verification == Verified
  }

  /** What no vendor operation ever takes back: rows stay, VERIFIED is final, and a trading vendor keeps trading. */
  ghost predicate VendorsPersist(before: seq<Vendor>, after: seq<Vendor>) {
    && |before| <= |after|
    && (forall v :: 0 <= v < |before| ==> after[v].user == before[v].user
                                          && (before[v].verification == Verified ==> after[v].verification == Verified))
    && (forall v: nat :: Trading(before, v) ==> Trading(after, v))
  }

  /** No verification update, however stale the read behind it, can un-verify a trading vendor. */
  lemma VerificationCommitKeeps(t: Tables, vendor: nat, from: Verification, to: Verification)
    requires VendorsOk(t.vendors) && from in AllowedFrom(to)
    ensures VendorsOk(CommitVerificationSpec(t, vendor, from, to).0.vendors)
    ensures VendorsPersist(t.vendors, CommitVerificationSpec(t, vendor, from, to).0.vendors)
  {
  }

  lemma ActivationCommitKeeps(t: Tables, vendor: nat)
    requires VendorsOk(t.vendors)
    ensures VendorsOk(CommitActivationSpec(t, vendor).0.vendors)
    ensures VendorsPersist(t.vendors, CommitActivationSpec(t, vendor).0.vendors)
  {
  }

  // ------------------------------------------------------------------------------------------
  // When the calls accept, and what they leave

  /** Only the verification status of one vendor, or only its account status, differs. */
  predicate OnlyVendorChanged(t: Tables, u: Tables, v: nat, status: AccountStatus, verification: Verification) {
    && v < |t.vendors| && u == t.(vendors := u.vendors) && |u.vendors| == |t.vendors|
    && (forall k :: 0 <= k < |t.vendors| && k != v ==> u.vendors[k] == t.vendors[k])
    && u.vendors[v] == Vendor(t.vendors[v].user, status, verification)
  }

  /** The verification table: to review, from review to verified, and rejection of whatever is undecided. */
  lemma AllowedFromMeaning(from: Verification, to: Verification)
    ensures from in AllowedFrom(to) <==>
              && to != Unverified && from != to && from != Verified && from != VerificationRejected
              && (to == Verified ==> from == UnderReview) && (to == UnderReview ==> from == Unverified)
  {
  }

  lemma VerifyIff(t: Tables, v: nat, to: Verification)
    ensures var (u, outcome) := VerifySpec(t, v, to);
            && (outcome == Done <==> v < |t.vendors| && t.vendors[v].verification in AllowedFrom(to))
            && (outcome == Failed(NotFound) <==> v >= |t.vendors|)
            && (outcome != Done ==> u == t && outcome in {Failed(NotFound), Failed(Conflict)})
            && (outcome == Done ==> OnlyVendorChanged(t, u, v, t.vendors[v].status, to))
  {
    hide AllowedFrom;
  }

  lemma ActivateIff(t: Tables, v: nat)
    ensures var (u, outcome) := ActivateSpec(t, v);
            && (outcome == Done <==>
                  v < |t.vendors| && t.vendors[v].status == AccountPending && t.vendors[v].verification == Verified)
            && (outcome == Failed(NotFound) <==> v >= |t.vendors|)
            && (outcome != Done ==> u == t && outcome in {Failed(NotFound), Failed(Conflict)})
            && (outcome == Done ==> OnlyVendorChanged(t, u, v, AccountActive, Verified))
  {
  }

  lemma CreateVendorIff(t: Tables, user: nat)
    ensures var (u, outcome) := CreateForUserSpec(t, user);
            && (outcome == Done <==> forall i :: 0 <= i < |t.vendors| ==> t.vendors[i].user != user)
            && (outcome != Done ==> u == t && outcome == Failed(Conflict))
            && (outcome == Done ==> u == t.(vendors := t.vendors + [Vendor(user, AccountPending, Unverified)]))
  {
  }
}
