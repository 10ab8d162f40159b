/**
 * `PharmacyService`: creating a pharmacy (admission checks), approving a
 * pending one, updating one by its owner (only the fields given), deleting
 * one (the list of images to remove from storage) and the open-now search.
 * The pharmacy and user collections are shared stores; the e-mails the
 * service sends go to a ghost outbox.
 */
module PharmacyService {
  import opened Wrappers
  import opened ObjectIds
  import opened UserEntity
  import opened PharmacyEntity
  import opened PharmacyHelper

  datatype CertificationDto = CertificationDto(name: string, date: string, image: string)

  /**
   * The pharmacy form. Absent or empty strings are "", a coordinate that is
   * absent or not a number is None, absent working hours are None.
   */
  datatype PharmacyDto = PharmacyDto(
    name: string,
    city: string,
    lng: Option<real>,
    lat: Option<real>,
    street: string,
    image: string,
    certifications: seq<CertificationDto>,
    workingHours: Option<map<string, DailyHours>>)

  datatype PharmacyEmail =
    | NewPharmacyRequest(pharmacyName: string, ownerFirstName: string, ownerEmail: string, ownerPhone: string, adminEmail: string)
    | PharmacyApproval(to: string, firstName: string)

  datatype PharmacyResponse = PharmacyResponse(message: string, pharmacy: Pharmacy)

  /** What a flow returns, and the pharmacies, users and e-mails after it. */
  datatype PharmacyOutcome<T> = PharmacyOutcome(
    result: Result<T>,
    pharmacies: map<ObjectId, Pharmacy>,
    users: map<ObjectId, User>,
    sent: seq<PharmacyEmail>)

  const MaxPharmacies := 5

  const AlreadyExists := HttpError(BadRequest, "There is already Pharmacy with this info.")
  const PendingExists := HttpError(BadRequest, "A pending event with this name already exists. Please wait for approval.")
  const OwnPending := HttpError(BadRequest, "You're already registered a Pharmacy, wait for Admin approval.")
  const TooManyPharmacies := HttpError(BadRequest, "You have reach the max of pharmacies")
  const VerifyAccountFirst := HttpError(BadRequest, "You should verify your account first.")
  const CreateFailed := HttpError(Conflict, "Failed to create Pharmacy.")
  const CreateSuccess := "Pharmacy created successfully."

  /** Reading `userId` of the null a missing id gives, before the null check. */
  const PharmacyMissing := HttpError(InternalServerError, "Cannot read properties of null (reading 'userId')")
  const OwnerMissing := HttpError(BadRequest, "This pharmacy users does not exist.")
  const AlreadyApproved := HttpError(BadRequest, "Pharmacy already approved.")
  const ApproveSuccess := "Pharmacy approved successfully."

  const UpdateNotFound := HttpError(NotFound, "Pharmacy does not exist.")
  const NotOwner := HttpError(Unauthorized, "You are not authorized to update this pharmacy.")
  const UpdateSuccess := "Pharmacy updated successfully."

  const DeleteNotFound := HttpError(NotFound, "Pharmacy does not exists")
  const DeleteSuccess := "Pharmacy deleted successfully."

  function Refuse<T>(pharmacies: map<ObjectId, Pharmacy>, users: map<ObjectId, User>, e: HttpError): PharmacyOutcome<T> {
    PharmacyOutcome(Err(e), pharmacies, users, [])
  }

  // ---------------------------------------------------------------- creation

  function ToCertification(c: CertificationDto): Certification {
    Certification(c.name, c.image, c.date)
  }

  /** The certifications written from the form's list, one for one and in order. */
  function ToCertifications(cs: seq<CertificationDto>): (r: seq<Certification>)
    ensures |r| == |cs|
    ensures forall i | 0 <= i < |cs| :: r[i] == Certification(cs[i].name, cs[i].image, cs[i].date)
  {
    if cs == [] then [] else [ToCertification(cs[0])] + ToCertifications(cs[1..])
  }

  /** The document `createPharmacy` saves: the address from street and city, the schema defaults for the rest. */
  function NewPharmacy(dto: PharmacyDto, owner: ObjectId): Pharmacy {
    Pharmacy(
      dto.name, owner, Address(dto.city, dto.street, None, None), ToCertifications(dto.certifications),
      dto.image, [], None, dto.workingHours.GetOr(DefaultWorkingHours), false)
  }

  /** The pharmacies `getUserPharmaciesCount` counts. */
  function OwnedBy(pharmacies: map<ObjectId, Pharmacy>, owner: ObjectId): set<ObjectId> {
    set k | k in pharmacies && pharmacies[k].userId == owner
  }

  /**
   * `handleCreatePharmacy`. `found` is what the name-and-address lookup
   * returned, `newId` the id the database gives the new document, `created`
   * whether `createPharmacy` returned it, `adminEmail` the administrator's
   * address.
   */
  function CreateSpec(
    pharmacies: map<ObjectId, Pharmacy>, users: map<ObjectId, User>, dto: PharmacyDto, userId: string,
    found: Option<Pharmacy>, newId: ObjectId, created: bool, adminEmail: string): PharmacyOutcome<string>
  {
    match ToObjectId(userId)
      case Err(e) => Refuse(pharmacies, users, e)
      case Ok(owner) =>
        if found.Some? && found.value.verifiedAt.Some? then Refuse(pharmacies, users, AlreadyExists)
        else if found.Some? then Refuse(pharmacies, users, PendingExists)
        else if |OwnedBy(pharmacies, owner)| >= MaxPharmacies then Refuse(pharmacies, users, TooManyPharmacies)
        else if owner !in users || users[owner].verifiedAt.None? then Refuse(pharmacies, users, VerifyAccountFirst)
        else if !created then Refuse(pharmacies, users, CreateFailed)
        else
          var user := users[owner];
          PharmacyOutcome(
            Ok(CreateSuccess), pharmacies[newId := NewPharmacy(dto, owner)], users,
            [NewPharmacyRequest(dto.name, user.firstName, user.email, user.phoneNumber, adminEmail)])
  }

  /** No owner has more than five pharmacies. */
  ghost predicate WithinLimit(pharmacies: map<ObjectId, Pharmacy>) {
    forall owner :: |OwnedBy(pharmacies, owner)| <= MaxPharmacies
  }

  /** The stored pharmacies stay within what the service admits: at most five per owner, helpers that pass the validator. */
  ghost predicate PharmaciesInvariant(pharmacies: map<ObjectId, Pharmacy>) {
    && WithinLimit(pharmacies)
    && (forall k | k in pharmacies :: HelpersValid(pharmacies[k].helpers))
  }

  /**
   * The admission checks in their order: an existing match first (verified,
   * then pending), then the five-pharmacy limit (before the account check),
   * then the account, then the repository's result; only a pass through all
   * of them saves the new pharmacy and notifies the administrator.
   */
  lemma CreateOutcome(
    pharmacies: map<ObjectId, Pharmacy>, users: map<ObjectId, User>, dto: PharmacyDto, userId: string,
    found: Option<Pharmacy>, newId: ObjectId, created: bool, adminEmail: string)
    requires IsMongoId(userId)
    ensures var o := CreateSpec(pharmacies, users, dto, userId, found, newId, created, adminEmail);
      var owner := ToObjectId(userId).value;
      && (found.Some? && found.value.verifiedAt.Some? ==> o.result == Err(AlreadyExists))
      && (found.Some? && found.value.verifiedAt.None? ==> o.result == Err(PendingExists))
      && (found.None? && |OwnedBy(pharmacies, owner)| >= MaxPharmacies ==> o.result == Err(TooManyPharmacies))
      && ((found.None? && |OwnedBy(pharmacies, owner)| < MaxPharmacies && (owner !in users || users[owner].verifiedAt.None?))
          ==> o.result == Err(VerifyAccountFirst))
      && ((found.None? && |OwnedBy(pharmacies, owner)| < MaxPharmacies && owner in users && users[owner].verifiedAt.Some? && !created)
          ==> o.result == Err(HttpError(Conflict, "Failed to create Pharmacy.")))
      && (o.result.Ok? <==>
          (found.None? && |OwnedBy(pharmacies, owner)| < MaxPharmacies && owner in users && users[owner].verifiedAt.Some? && created))
      && (o.result.Err? ==> o.pharmacies == pharmacies && o.sent == [])
      && (o.result.Ok? ==>
          (o.pharmacies == pharmacies[newId := NewPharmacy(dto, owner)] && |o.sent| == 1
           && o.sent[0].NewPharmacyRequest? && o.sent[0].adminEmail == adminEmail))
      && o.users == users
  {
  }

  /** The third refusal ("You're already registered a Pharmacy…") can never be given: the first two catch every match. */
  lemma OwnPendingUnreachable(
    pharmacies: map<ObjectId, Pharmacy>, users: map<ObjectId, User>, dto: PharmacyDto, userId: string,
    found: Option<Pharmacy>, newId: ObjectId, created: bool, adminEmail: string)
    ensures CreateSpec(pharmacies, users, dto, userId, found, newId, created, adminEmail).result != Err(OwnPending)
    ensures found.Some? && IsMongoId(userId) ==>
      CreateSpec(pharmacies, users, dto, userId, found, newId, created, adminEmail).result in {Err(AlreadyExists), Err(PendingExists)}
  {
    if IsMongoId(userId) {
      CreateOutcome(pharmacies, users, dto, userId, found, newId, created, adminEmail);
      assert AlreadyExists != OwnPending && PendingExists != OwnPending;
    }
  }

  /** A new pharmacy starts pending, without helpers, off weekend duty and, unless the form gives hours, open 09:00–18:00 daily. */
  lemma NewPharmacyDefaults(dto: PharmacyDto, owner: ObjectId, now: Clock)
    ensures var p := NewPharmacy(dto, owner);
      && p.verifiedAt == None && p.helpers == [] && HelpersValid(p.helpers) && !p.weekendPermanence
      && p.userId == owner && p.address.lng == None && p.address.lat == None
      && p.name == dto.name && p.image == dto.image && p.address.city == dto.city && p.address.street == dto.street
      && |p.certifications| == |dto.certifications|
      && (forall i | 0 <= i < |dto.certifications| ::
            p.certifications[i] == Certification(dto.certifications[i].name, dto.certifications[i].image, dto.certifications[i].date))
      && (dto.workingHours.Some? ==> p.workingHours == dto.workingHours.value)
      && (dto.workingHours.None? ==> (IsPharmacyOpen(p, now) <==> 540 <= MinutesOf(now) <= 1080))
  {
    var p := NewPharmacy(dto, owner);
    if dto.workingHours.None? {
      DefaultHoursOpen(p, now);
    }
  }

  /** Adding a pharmacy for an owner below the limit keeps every owner within it. */
  lemma AddingKeepsLimit(pharmacies: map<ObjectId, Pharmacy>, newId: ObjectId, p: Pharmacy)
    requires WithinLimit(pharmacies)
    requires newId !in pharmacies && |OwnedBy(pharmacies, p.userId)| < MaxPharmacies
    ensures WithinLimit(pharmacies[newId := p])
  {
    var after := pharmacies[newId := p];
    forall owner
      ensures |OwnedBy(after, owner)| <= MaxPharmacies
    {
      if owner == p.userId {
        assert OwnedBy(after, owner) == OwnedBy(pharmacies, owner) + {newId};
      } else {
        assert OwnedBy(after, owner) == OwnedBy(pharmacies, owner);
      }
    }
  }

  /** Creation never lets an owner exceed five pharmacies, and the new document passes the helpers validator. */
  lemma CreateKeepsInvariant(
    pharmacies: map<ObjectId, Pharmacy>, users: map<ObjectId, User>, dto: PharmacyDto, userId: string,
    found: Option<Pharmacy>, newId: ObjectId, created: bool, adminEmail: string)
    requires PharmaciesInvariant(pharmacies) && newId !in pharmacies
    ensures PharmaciesInvariant(CreateSpec(pharmacies, users, dto, userId, found, newId, created, adminEmail).pharmacies)
  {
    var o := CreateSpec(pharmacies, users, dto, userId, found, newId, created, adminEmail);
    if o.result.Ok? {
      var owner := ToObjectId(userId).value;
      AddingKeepsLimit(pharmacies, newId, NewPharmacy(dto, owner));
    }
  }

  // ---------------------------------------------------------------- approval

  /** `handleApprovePendingPharmacy`; `pharmacyRoleId` is the id of the "Pharmacy" role and `now` the clock. */
  function ApproveSpec(
    pharmacies: map<ObjectId, Pharmacy>, users: map<ObjectId, User>, id: string, now: int,
    pharmacyRoleId: ObjectId): PharmacyOutcome<PharmacyResponse>
  {
    match ToObjectId(id)
      case Err(e) => Refuse(pharmacies, users, e)
      case Ok(pid) =>
        if pid !in pharmacies then Refuse(pharmacies, users, PharmacyMissing)
        else
          var p := pharmacies[pid];
          if p.userId !in users then Refuse(pharmacies, users, OwnerMissing)
          else if p.verifiedAt.Some? then Refuse(pharmacies, users, AlreadyApproved)
          else
            var approved := p.(verifiedAt := Some(now));
            var owner := users[p.userId];
            PharmacyOutcome(
              Ok(PharmacyResponse(ApproveSuccess, approved)),
              pharmacies[pid := approved], users[p.userId := owner.(roleId := pharmacyRoleId)],
              [PharmacyApproval(owner.email, owner.firstName)])
  }

  /**
   * Approval succeeds exactly for a pending pharmacy whose owner exists; it
   * then stamps `verifiedAt`, gives the owner the pharmacy role and mails the
   * owner, and changes nothing else. Any refusal changes nothing.
   */
  lemma ApproveOutcome(
    pharmacies: map<ObjectId, Pharmacy>, users: map<ObjectId, User>, id: string, now: int, pharmacyRoleId: ObjectId)
    requires IsMongoId(id)
    ensures var o := ApproveSpec(pharmacies, users, id, now, pharmacyRoleId);
      var pid := ToObjectId(id).value;
      && (pid !in pharmacies ==> o.result == Err(PharmacyMissing))
      && (pid in pharmacies && pharmacies[pid].userId in users && pharmacies[pid].verifiedAt.Some? ==>
            o.result == Err(AlreadyApproved))
      && (o.result.Ok? <==> pid in pharmacies && pharmacies[pid].userId in users && pharmacies[pid].verifiedAt.None?)
      && (o.result.Err? ==> o.pharmacies == pharmacies && o.users == users && o.sent == [])
      && (o.result.Ok? ==>
            var p := pharmacies[pid];
            var owner := users[p.userId];
            && o.pharmacies == pharmacies[pid := p.(verifiedAt := Some(now))]
            && o.result.value.pharmacy == o.pharmacies[pid]
            && o.users == users[p.userId := owner.(roleId := pharmacyRoleId)]
            && o.sent == [PharmacyApproval(owner.email, owner.firstName)])
  {
  }

  /** A second approval of the same pharmacy is refused and changes nothing. */
  lemma ApproveOnlyOnce(
    pharmacies: map<ObjectId, Pharmacy>, users: map<ObjectId, User>, id: string, now: int, later: int, pharmacyRoleId: ObjectId)
    requires ApproveSpec(pharmacies, users, id, now, pharmacyRoleId).result.Ok?
    ensures var o := ApproveSpec(pharmacies, users, id, now, pharmacyRoleId);
      var again := ApproveSpec(o.pharmacies, o.users, id, later, pharmacyRoleId);
      again.result == Err(AlreadyApproved) && again.pharmacies == o.pharmacies && again.users == o.users
  {
    ApproveOutcome(pharmacies, users, id, now, pharmacyRoleId);
  }

  /** Approval keeps the pharmacy invariant, and the user invariant since only a role changes. */
  lemma ApproveKeepsInvariants(
    pharmacies: map<ObjectId, Pharmacy>, users: map<ObjectId, User>, id: string, now: int, pharmacyRoleId: ObjectId)
    requires PharmaciesInvariant(pharmacies) && StoreInvariant(users)
    ensures var o := ApproveSpec(pharmacies, users, id, now, pharmacyRoleId);
      PharmaciesInvariant(o.pharmacies) && StoreInvariant(o.users)
  {
    var o := ApproveSpec(pharmacies, users, id, now, pharmacyRoleId);
    if o.result.Ok? {
      var pid := ToObjectId(id).value;
      var p := pharmacies[pid];
      forall owner
        ensures |OwnedBy(o.pharmacies, owner)| <= MaxPharmacies
      {
        assert OwnedBy(o.pharmacies, owner) == OwnedBy(pharmacies, owner);
      }
      SameIdentitiesKeepInvariant(users, p.userId, users[p.userId].(roleId := pharmacyRoleId));
    }
  }

  /** A pharmacy a verified user has just created can then be approved. */
  lemma CreatedPharmacyCanBeApproved(
    pharmacies: map<ObjectId, Pharmacy>, users: map<ObjectId, User>, dto: PharmacyDto, userId: string,
    newId: ObjectId, adminEmail: string, now: int, pharmacyRoleId: ObjectId)
    requires IsCanonical(newId)
    requires CreateSpec(pharmacies, users, dto, userId, None, newId, true, adminEmail).result.Ok?
    ensures var c := CreateSpec(pharmacies, users, dto, userId, None, newId, true, adminEmail);
      var a := ApproveSpec(c.pharmacies, c.users, newId.hex, now, pharmacyRoleId);
      a.result.Ok? && a.pharmacies[newId].verifiedAt == Some(now)
  {
    CanonicalRoundTrip(newId);
    assert IsMongoId(userId);
    CreateOutcome(pharmacies, users, dto, userId, None, newId, true, adminEmail);
    var c := CreateSpec(pharmacies, users, dto, userId, None, newId, true, adminEmail);
    assert c.pharmacies[newId] == NewPharmacy(dto, ToObjectId(userId).value);
    ApproveOutcome(c.pharmacies, c.users, newId.hex, now, pharmacyRoleId);
  }

  // ---------------------------------------------------------------- update

  /** The `updateData` object: a field is present only where the update writes it. */
  datatype PharmacyPatch = PharmacyPatch(
    name: Option<string>,
    image: Option<string>,
    address: Option<Address>,
    certifications: Option<seq<Certification>>,
    workingHours: Option<map<string, DailyHours>>)

  /** A coordinate is copied only when it is truthy: given, a number, and not 0. */
  predicate Truthy(x: Option<real>) {
    x.Some? && x.value != 0.0
  }

  /** The address an update writes: the stored one, with the truthy fields of the form over it. */
  function MergedAddress(stored: Address, dto: PharmacyDto): Address {
    Address(
      if dto.city != "" then dto.city else stored.city,
      if dto.street != "" then dto.street else stored.street,
      if Truthy(dto.lng) then dto.lng else stored.lng,
      if Truthy(dto.lat) then dto.lat else stored.lat)
  }

  /** The `updateData` built from the form and the stored pharmacy. */
  function UpdateData(stored: Pharmacy, dto: PharmacyDto): PharmacyPatch {
    PharmacyPatch(
      if dto.name != "" then Some(dto.name) else None,
      if dto.image != "" then Some(dto.image) else None,
      if dto.city != "" || dto.street != "" then Some(MergedAddress(stored.address, dto)) else None,
      if |dto.certifications| > 0 then Some(ToCertifications(dto.certifications)) else None,
      if dto.workingHours.Some? then Some(stored.workingHours + dto.workingHours.value) else None)
  }

  /** `$set` of the patch: the present fields replace the stored ones. */
  function ApplyPatch(p: Pharmacy, patch: PharmacyPatch): Pharmacy {
    p.(name := patch.name.GetOr(p.name),
       image := patch.image.GetOr(p.image),
       address := patch.address.GetOr(p.address),
       certifications := patch.certifications.GetOr(p.certifications),
       workingHours := patch.workingHours.GetOr(p.workingHours))
  }

  function Updated(stored: Pharmacy, dto: PharmacyDto): Pharmacy {
    ApplyPatch(stored, UpdateData(stored, dto))
  }

  /** `handleUpdatePharmacy` by user `userId` of pharmacy `pharmacyId`. */
  function UpdateSpec(pharmacies: map<ObjectId, Pharmacy>, userId: string, pharmacyId: string, dto: PharmacyDto)
    : (r: (Result<PharmacyResponse>, map<ObjectId, Pharmacy>))
  {
    match (ToObjectId(userId), ToObjectId(pharmacyId))
      case (Err(e), _) => (Err(e), pharmacies)
      case (_, Err(e)) => (Err(e), pharmacies)
      case (Ok(uid), Ok(pid)) =>
        if pid !in pharmacies then (Err(UpdateNotFound), pharmacies)
        else if pharmacies[pid].userId != uid then (Err(NotOwner), pharmacies)
        else
          var q := Updated(pharmacies[pid], dto);
          (Ok(PharmacyResponse(UpdateSuccess, q)), pharmacies[pid := q])
  }

  /**
   * The merge rules: name and image only when given; the address only when a
   * city or street is given, and then each given field over the stored
   * address, a coordinate never when it is 0; certifications only for a
   * non-empty list; working hours day by day, the given days over the stored
   * ones. Owner, approval, helpers and weekend duty never change.
   */
  lemma UpdateMergeRules(p: Pharmacy, dto: PharmacyDto)
    ensures var q := Updated(p, dto);
      && q.name == (if dto.name != "" then dto.name else p.name)
      && q.image == (if dto.image != "" then dto.image else p.image)
      && (dto.city == "" && dto.street == "" ==> q.address == p.address)
      && (dto.city != "" || dto.street != "" ==>
            && q.address.city == (if dto.city != "" then dto.city else p.address.city)
            && q.address.street == (if dto.street != "" then dto.street else p.address.street))
      && (!Truthy(dto.lng) ==> q.address.lng == p.address.lng)
      && (!Truthy(dto.lat) ==> q.address.lat == p.address.lat)
      && ((dto.city != "" || dto.street != "") && Truthy(dto.lng) ==> q.address.lng == dto.lng)
      && ((dto.city != "" || dto.street != "") && Truthy(dto.lat) ==> q.address.lat == dto.lat)
      && (|dto.certifications| == 0 ==> q.certifications == p.certifications)
      && (|dto.certifications| > 0 ==>
            (|q.certifications| == |dto.certifications|
             && forall i | 0 <= i < |dto.certifications| ::
                  q.certifications[i] == Certification(dto.certifications[i].name, dto.certifications[i].image, dto.certifications[i].date)))
      && (dto.workingHours.None? ==> q.workingHours == p.workingHours)
      && (dto.workingHours.Some? ==>
            && q.workingHours.Keys == p.workingHours.Keys + dto.workingHours.value.Keys
            && forall day | day in q.workingHours ::
                 q.workingHours[day] == if day in dto.workingHours.value then dto.workingHours.value[day] else p.workingHours[day])
      && q.userId == p.userId && q.verifiedAt == p.verifiedAt && q.helpers == p.helpers
      && q.weekendPermanence == p.weekendPermanence
  {
  }

  /** A form with nothing truthy in it leaves the pharmacy as it is. */
  lemma EmptyUpdateChangesNothing(p: Pharmacy)
    ensures Updated(p, PharmacyDto("", "", None, None, "", "", [], None)) == p
  {
  }

  /** Coordinates given as 0 are never written, even with a new city. */
  lemma ZeroCoordinatesIgnored(p: Pharmacy, dto: PharmacyDto)
    requires dto.lng == Some(0.0) && dto.lat == Some(0.0)
    ensures Updated(p, dto).address.lng == p.address.lng && Updated(p, dto).address.lat == p.address.lat
  {
  }

  /** Submitting the same form twice gives the same pharmacy as once. */
  lemma UpdateIdempotent(p: Pharmacy, dto: PharmacyDto)
    ensures Updated(Updated(p, dto), dto) == Updated(p, dto)
  {
    var once := Updated(p, dto);
    if dto.workingHours.Some? {
      var w := dto.workingHours.value;
      assert once.workingHours + w == p.workingHours + w;
    }
    if dto.city != "" || dto.street != "" {
      assert MergedAddress(once.address, dto) == once.address;
    }
  }

  /**
   * Refusals (bad id, missing pharmacy, someone else's pharmacy) write
   * nothing; an update by the owner replaces exactly that pharmacy.
   */
  lemma UpdateOutcome(pharmacies: map<ObjectId, Pharmacy>, userId: string, pharmacyId: string, dto: PharmacyDto)
    requires IsMongoId(userId) && IsMongoId(pharmacyId)
    ensures var (r, after) := UpdateSpec(pharmacies, userId, pharmacyId, dto);
      var uid := ToObjectId(userId).value;
      var pid := ToObjectId(pharmacyId).value;
      && (pid !in pharmacies ==> r == Err(UpdateNotFound))
      && (pid in pharmacies && pharmacies[pid].userId != uid ==> r == Err(NotOwner))
      && (r.Err? ==> after == pharmacies)
      && (r.Ok? <==> pid in pharmacies && pharmacies[pid].userId == uid)
      && (r.Ok? ==> after == pharmacies[pid := Updated(pharmacies[pid], dto)] && r.value.pharmacy == after[pid])
  {
  }

  /** An update keeps the pharmacy invariant: owners and helpers are untouched. */
  lemma UpdateKeepsInvariant(pharmacies: map<ObjectId, Pharmacy>, userId: string, pharmacyId: string, dto: PharmacyDto)
    requires PharmaciesInvariant(pharmacies)
    ensures PharmaciesInvariant(UpdateSpec(pharmacies, userId, pharmacyId, dto).1)
  {
    var (r, after) := UpdateSpec(pharmacies, userId, pharmacyId, dto);
    if r.Ok? {
      forall owner
        ensures |OwnedBy(after, owner)| <= MaxPharmacies
      {
        assert OwnedBy(after, owner) == OwnedBy(pharmacies, owner);
      }
    }
  }

  // ---------------------------------------------------------------- deletion

  /** The truthy certification images, in order. */
  function CertificationImages(cs: seq<Certification>): (images: seq<string>)
    ensures forall x | x in images :: x != ""
  {
    if cs == [] then []
    else (if cs[0].image != "" then [cs[0].image] else []) + CertificationImages(cs[1..])
  }

  /** `filter(Boolean)` on a list of strings: exactly its non-empty entries. */
  function NonEmpty(s: seq<string>): (r: seq<string>)
    ensures |r| <= |s|
    ensures forall x :: x in r <==> x in s && x != ""
  {
    if s == [] then []
    else
      assert s == [s[0]] + s[1..];
      (if s[0] != "" then [s[0]] else []) + NonEmpty(s[1..])
  }

  /** The filter works entry by entry, so it keeps the order of the list. */
  lemma {:induction false} NonEmptyConcat(a: seq<string>, b: seq<string>)
    ensures NonEmpty(a + b) == NonEmpty(a) + NonEmpty(b)
  {
    if a != [] {
      assert (a + b)[0] == a[0] && (a + b)[1..] == a[1..] + b;
      NonEmptyConcat(a[1..], b);
    } else {
      assert a + b == b;
    }
  }

  /** The images `handleDeletePharmacy` asks the storage to remove. */
  function ImagesToDeleteSpec(p: Pharmacy): seq<string> {
    NonEmpty([p.image] + CertificationImages(p.certifications))
  }

  lemma {:induction false} CertificationImagesAppend(cs: seq<Certification>, c: Certification)
    ensures CertificationImages(cs + [c]) == CertificationImages(cs) + (if c.image != "" then [c.image] else [])
  {
    if cs != [] {
      assert (cs + [c])[1..] == cs[1..] + [c];
      CertificationImagesAppend(cs[1..], c);
    } else {
      assert [c][1..] == [];
    }
  }

  lemma {:induction false} NonEmptyKeepsNonEmpty(s: seq<string>)
    requires forall x | x in s :: x != ""
    ensures NonEmpty(s) == s
  {
    if s != [] {
      assert forall x | x in s[1..] :: x in s;
      NonEmptyKeepsNonEmpty(s[1..]);
      assert s[0] in s;
      assert NonEmpty(s) == [s[0]] + NonEmpty(s[1..]);
      assert s == [s[0]] + s[1..];
    }
  }

  lemma {:induction false} CertificationImagesMembers(cs: seq<Certification>, x: string)
    ensures x in CertificationImages(cs) <==> x != "" && exists i | 0 <= i < |cs| :: cs[i].image == x
  {
    if cs != [] {
      CertificationImagesMembers(cs[1..], x);
      if exists i | 0 <= i < |cs| :: cs[i].image == x {
        var i :| 0 <= i < |cs| && cs[i].image == x;
        if i > 0 {
          assert cs[1..][i - 1].image == x;
        }
      }
      if exists i | 0 <= i < |cs| - 1 :: cs[1..][i].image == x {
        var i :| 0 <= i < |cs| - 1 && cs[1..][i].image == x;
        assert cs[i + 1].image == x;
      }
    }
  }

  /**
   * The images to delete are the pharmacy's image when it has one, then every
   * certification image that is set, in order; so exactly the non-empty
   * images of the pharmacy and its certifications.
   */
  lemma ImagesToDeleteContents(p: Pharmacy, x: string)
    ensures ImagesToDeleteSpec(p) == (if p.image != "" then [p.image] else []) + CertificationImages(p.certifications)
    ensures x in ImagesToDeleteSpec(p) <==>
      x != "" && (x == p.image || exists i | 0 <= i < |p.certifications| :: p.certifications[i].image == x)
  {
    var s := [p.image] + CertificationImages(p.certifications);
    assert s[1..] == CertificationImages(p.certifications);
    NonEmptyKeepsNonEmpty(CertificationImages(p.certifications));
    CertificationImagesMembers(p.certifications, x);
  }

  /** The `imagesToDelete` list: the image, then a push for each certification with an image, then the filter. */
  method ImagesToDelete(p: Pharmacy) returns (images: seq<string>)
    ensures images == ImagesToDeleteSpec(p)
  {
    var collected := [p.image];
    var certs := p.certifications;
    for i := 0 to |certs|
      invariant collected == [p.image] + CertificationImages(certs[..i])
    {
      CertificationImagesAppend(certs[..i], certs[i]);
      assert certs[..i + 1] == certs[..i] + [certs[i]];
      if certs[i].image != "" {
        collected := collected + [certs[i].image];
      }
    }
    assert certs[..|certs|] == certs;
    images := NonEmpty(collected);
  }

  /** `handleDeletePharmacy`: the response, the pharmacies after it and the images handed to storage. */
  function DeleteSpec(pharmacies: map<ObjectId, Pharmacy>, userId: string, pharmacyId: string)
    : (r: (Result<PharmacyResponse>, map<ObjectId, Pharmacy>, seq<string>))
  {
    match (ToObjectId(userId), ToObjectId(pharmacyId))
      case (Err(e), _) => (Err(e), pharmacies, [])
      case (_, Err(e)) => (Err(e), pharmacies, [])
      case (Ok(uid), Ok(pid)) =>
        if pid !in pharmacies then (Err(DeleteNotFound), pharmacies, [])
        else if uid != pharmacies[pid].userId then (Err(NotOwner), pharmacies, [])
        else
          (Ok(PharmacyResponse(DeleteSuccess, pharmacies[pid])), pharmacies - {pid}, ImagesToDeleteSpec(pharmacies[pid]))
  }

  /** Only the owner deletes; the pharmacy is then gone, the others stay, and only its images are removed. */
  lemma DeleteOutcome(pharmacies: map<ObjectId, Pharmacy>, userId: string, pharmacyId: string)
    requires IsMongoId(userId) && IsMongoId(pharmacyId)
    ensures var (r, after, images) := DeleteSpec(pharmacies, userId, pharmacyId);
      var uid := ToObjectId(userId).value;
      var pid := ToObjectId(pharmacyId).value;
      && (pid !in pharmacies ==> r == Err(DeleteNotFound))
      && (pid in pharmacies && pharmacies[pid].userId != uid ==> r == Err(NotOwner))
      && (r.Err? ==> after == pharmacies && images == [])
      && (r.Ok? <==> pid in pharmacies && pharmacies[pid].userId == uid)
      && (r.Ok? ==>
            (pid !in after && after.Keys == pharmacies.Keys - {pid}
             && (forall k | k in after :: after[k] == pharmacies[k])
             && images == ImagesToDeleteSpec(pharmacies[pid])
             && forall x | x in images :: x != ""))
  {
  }

  /** Deleting keeps the pharmacy invariant. */
  lemma DeleteKeepsInvariant(pharmacies: map<ObjectId, Pharmacy>, userId: string, pharmacyId: string)
    requires PharmaciesInvariant(pharmacies)
    ensures PharmaciesInvariant(DeleteSpec(pharmacies, userId, pharmacyId).1)
  {
    var (r, after, _) := DeleteSpec(pharmacies, userId, pharmacyId);
    forall owner
      ensures |OwnedBy(after, owner)| <= MaxPharmacies
    {
      assert OwnedBy(after, owner) <= OwnedBy(pharmacies, owner);
      SubsetCard(OwnedBy(after, owner), OwnedBy(pharmacies, owner));
    }
  }

  lemma SubsetCard(a: set<ObjectId>, b: set<ObjectId>)
    requires a <= b
    ensures |a| <= |b|
  {
    assert b == a + (b - a);
  }

  // ---------------------------------------------------------------- search

  /** The pharmacies of `found` open at `now`, in their order. */
  function OpenOnly(found: seq<Pharmacy>, now: Clock): seq<Pharmacy> {
    if found == [] then []
    else (if IsPharmacyOpen(found[0], now) then [found[0]] else []) + OpenOnly(found[1..], now)
  }

  /** `handleFindPharmacies` on the search result `found`. */
  function FindPharmacies(found: seq<Pharmacy>, openNow: bool, now: Clock): seq<Pharmacy> {
    if openNow then OpenOnly(found, now) else found
  }

  /** The open-now filter keeps exactly the open pharmacies of the search result. */
  lemma {:induction false} OpenOnlyMembers(found: seq<Pharmacy>, now: Clock, p: Pharmacy)
    ensures p in OpenOnly(found, now) <==> p in found && IsPharmacyOpen(p, now)
  {
    if found != [] {
      OpenOnlyMembers(found[1..], now, p);
      assert found == [found[0]] + found[1..];
    }
  }

  /** The filter works piece by piece, so it keeps the search order. */
  lemma {:induction false} OpenOnlyConcat(a: seq<Pharmacy>, b: seq<Pharmacy>, now: Clock)
    ensures OpenOnly(a + b, now) == OpenOnly(a, now) + OpenOnly(b, now)
  {
    if a == [] {
      assert a + b == b;
    } else {
      assert (a + b)[1..] == a[1..] + b;
      OpenOnlyConcat(a[1..], b, now);
    }
  }

  /** Without `openNow` the search result is returned as it is; with it, only open pharmacies, and filtering again changes nothing. */
  lemma FindPharmaciesResult(found: seq<Pharmacy>, openNow: bool, now: Clock)
    ensures !openNow ==> FindPharmacies(found, openNow, now) == found
    ensures openNow ==> forall p | p in FindPharmacies(found, openNow, now) :: p in found && IsPharmacyOpen(p, now)
    ensures FindPharmacies(FindPharmacies(found, openNow, now), openNow, now) == FindPharmacies(found, openNow, now)
  {
    if openNow {
      forall p | p in OpenOnly(found, now) ensures p in found && IsPharmacyOpen(p, now) {
        OpenOnlyMembers(found, now, p);
      }
      OpenOnlyIdempotent(found, now);
    }
  }

  lemma {:induction false} OpenOnlyIdempotent(found: seq<Pharmacy>, now: Clock)
    ensures OpenOnly(OpenOnly(found, now), now) == OpenOnly(found, now)
  {
    if found != [] {
      OpenOnlyIdempotent(found[1..], now);
      var head := if IsPharmacyOpen(found[0], now) then [found[0]] else [];
      OpenOnlyConcat(head, OpenOnly(found[1..], now), now);
      if head != [] {
        assert head[1..] == [];
      }
    }
  }

  // ---------------------------------------------------------------- service

  /** The service over the shared pharmacy and user collections. */
  class PharmacyService {
    const pharmacyStore: PharmacyStore
    const userStore: UserStore
    /** The id of the "Pharmacy" role that approval gives the owner. */
    const pharmacyRoleId: ObjectId
    ghost var outbox: seq<PharmacyEmail>

    ghost predicate Valid()
      reads this, pharmacyStore, userStore
    {
      PharmaciesInvariant(pharmacyStore.pharmacies) && StoreInvariant(userStore.users)
    }

    constructor (pharmacyStore: PharmacyStore, userStore: UserStore, pharmacyRoleId: ObjectId)
      ensures this.pharmacyStore == pharmacyStore && this.userStore == userStore
      ensures this.pharmacyRoleId == pharmacyRoleId && outbox == []
    {
      this.pharmacyStore := pharmacyStore;
      this.userStore := userStore;
      this.pharmacyRoleId := pharmacyRoleId;
      outbox := [];
    }

    /** `handleCreatePharmacy`, with the repository's answers as parameters (see `CreateSpec`). */
    method HandleCreatePharmacy(
      dto: PharmacyDto, userId: string, found: Option<Pharmacy>, newId: ObjectId, created: bool, adminEmail: string)
      returns (r: Result<string>)
      requires Valid() && newId !in pharmacyStore.pharmacies
      modifies this, pharmacyStore
      ensures var o := CreateSpec(old(pharmacyStore.pharmacies), userStore.users, dto, userId, found, newId, created, adminEmail);
        r == o.result && pharmacyStore.pharmacies == o.pharmacies && outbox == old(outbox) + o.sent
      ensures Valid()
    {
      CreateKeepsInvariant(pharmacyStore.pharmacies, userStore.users, dto, userId, found, newId, created, adminEmail);
      var owner := ToObjectId(userId);
      if owner.Err? {
        return Err(owner.error);
      }
      var uid := owner.value;
      if found.Some? && found.value.verifiedAt.Some? {
        return Err(AlreadyExists);
      }
      if found.Some? && found.value.verifiedAt.None? {
        return Err(PendingExists);
      }
      var count := |OwnedBy(pharmacyStore.pharmacies, uid)|;
      if count >= MaxPharmacies {
        return Err(TooManyPharmacies);
      }
      if uid !in userStore.users || userStore.users[uid].verifiedAt.None? {
        return Err(VerifyAccountFirst);
      }
      if !created {
        return Err(CreateFailed);
      }
      pharmacyStore.pharmacies := pharmacyStore.pharmacies[newId := NewPharmacy(dto, uid)];
      var user := userStore.users[uid];
      outbox := outbox + [NewPharmacyRequest(dto.name, user.firstName, user.email, user.phoneNumber, adminEmail)];
      r := Ok(CreateSuccess);
    }

    /** `handleApprovePendingPharmacy` at time `now`. */
    method HandleApprovePendingPharmacy(id: string, now: int) returns (r: Result<PharmacyResponse>)
      requires Valid()
      modifies this, pharmacyStore, userStore
      ensures var o := ApproveSpec(old(pharmacyStore.pharmacies), old(userStore.users), id, now, pharmacyRoleId);
        && r == o.result && pharmacyStore.pharmacies == o.pharmacies && userStore.users == o.users
        && outbox == old(outbox) + o.sent
      ensures Valid()
    {
      ApproveKeepsInvariants(pharmacyStore.pharmacies, userStore.users, id, now, pharmacyRoleId);
      var pharmacyId := ToObjectId(id);
      if pharmacyId.Err? {
        return Err(pharmacyId.error);
      }
      var pid := pharmacyId.value;
      if pid !in pharmacyStore.pharmacies {
        return Err(PharmacyMissing);
      }
      var pharmacy := pharmacyStore.pharmacies[pid];
      var ownerId := pharmacy.userId;
      if ownerId !in userStore.users {
        return Err(OwnerMissing);
      }
      var user := userStore.users[ownerId];
      if pharmacy.verifiedAt.Some? {
        return Err(AlreadyApproved);
      }
      pharmacy := pharmacy.(verifiedAt := Some(now));
      pharmacyStore.pharmacies := pharmacyStore.pharmacies[pid := pharmacy];
      userStore.users := userStore.users[ownerId := user.(roleId := pharmacyRoleId)];
      outbox := outbox + [PharmacyApproval(user.email, user.firstName)];
      r := Ok(PharmacyResponse(ApproveSuccess, pharmacy));
    }

    /** `handleUpdatePharmacy`: builds `updateData` field by field, then sets it. */
    method HandleUpdatePharmacy(userId: string, pharmacyId: string, dto: PharmacyDto) returns (r: Result<PharmacyResponse>)
      requires Valid()
      modifies pharmacyStore
      ensures var (expected, after) := UpdateSpec(old(pharmacyStore.pharmacies), userId, pharmacyId, dto);
        r == expected && pharmacyStore.pharmacies == after
      ensures Valid()
    {
      UpdateKeepsInvariant(pharmacyStore.pharmacies, userId, pharmacyId, dto);
      var user := ToObjectId(userId);
      if user.Err? {
        return Err(user.error);
      }
      var pharmacyObjectId := ToObjectId(pharmacyId);
      if pharmacyObjectId.Err? {
        return Err(pharmacyObjectId.error);
      }
      var pid := pharmacyObjectId.value;
      if pid !in pharmacyStore.pharmacies {
        return Err(UpdateNotFound);
      }
      var pharmacy := pharmacyStore.pharmacies[pid];
      if pharmacy.userId != user.value {
        return Err(NotOwner);
      }
      var updateData := PharmacyPatch(None, None, None, None, None);
      if dto.name != "" {
        updateData := updateData.(name := Some(dto.name));
      }
      if dto.image != "" {
        updateData := updateData.(image := Some(dto.image));
      }
      if dto.city != "" || dto.street != "" {
        var address := pharmacy.address;
        if dto.city != "" {
          address := address.(city := dto.city);
        }
        if dto.street != "" {
          address := address.(street := dto.street);
        }
        if Truthy(dto.lng) {
          address := address.(lng := dto.lng);
        }
        if Truthy(dto.lat) {
          address := address.(lat := dto.lat);
        }
        updateData := updateData.(address := Some(address));
      }
      if |dto.certifications| > 0 {
        updateData := updateData.(certifications := Some(ToCertifications(dto.certifications)));
      }
      if dto.workingHours.Some? {
        updateData := updateData.(workingHours := Some(pharmacy.workingHours + dto.workingHours.value));
      }
      var updated := ApplyPatch(pharmacy, updateData);
      pharmacyStore.pharmacies := pharmacyStore.pharmacies[pid := updated];
      r := Ok(PharmacyResponse(UpdateSuccess, updated));
    }

    /** `handleDeletePharmacy`: `images` are the files handed to the storage for deletion. */
    method HandleDeletePharmacy(userId: string, pharmacyId: string) returns (r: Result<PharmacyResponse>, images: seq<string>)
      requires Valid()
      modifies pharmacyStore
      ensures var (expected, after, files) := DeleteSpec(old(pharmacyStore.pharmacies), userId, pharmacyId);
        r == expected && pharmacyStore.pharmacies == after && images == files
      ensures Valid()
    {
      DeleteKeepsInvariant(pharmacyStore.pharmacies, userId, pharmacyId);
      images := [];
      var user := ToObjectId(userId);
      if user.Err? {
        return Err(user.error), [];
      }
      var pharmacyObjectId := ToObjectId(pharmacyId);
      if pharmacyObjectId.Err? {
        return Err(pharmacyObjectId.error), [];
      }
      var pid := pharmacyObjectId.value;
      if pid !in pharmacyStore.pharmacies {
        return Err(DeleteNotFound), [];
      }
      var pharmacy := pharmacyStore.pharmacies[pid];
      if user.value != pharmacy.userId {
        return Err(NotOwner), [];
      }
      images := ImagesToDelete(pharmacy);
      pharmacyStore.pharmacies := pharmacyStore.pharmacies - {pid};
      r := Ok(PharmacyResponse(DeleteSuccess, pharmacy));
    }
  }
}
