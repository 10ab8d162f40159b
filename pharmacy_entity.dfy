/**
 * The `Pharmacy` document of the pharmacy schema: its embedded address,
 * certifications, helpers and working hours, the defaults a new document
 * gets, and the validator on its helpers.
 */
module PharmacyEntity {
  import opened Wrappers
  import opened ObjectIds

  /**
   * The schema marks `lng` and `lat` required; they are options here because
   * the document `createPharmacy` builds carries none, which the schema's
   * validation may refuse (not modelled: creation's result is a parameter).
   */
  datatype Address = Address(city: string, street: string, lng: Option<real>, lat: Option<real>)

  /** A certification; `image` is "" while no file is attached. */
  datatype Certification = Certification(name: string, image: string, date: string)

  datatype Helper = Helper(email: string, permissions: seq<string>)

  /** Opening and closing time of one day, as "HH:MM" text. */
  datatype DailyHours = DailyHours(open: string, close: string)

  /** A pharmacy; `verifiedAt` is None while it waits for an administrator's approval. */
  datatype Pharmacy = Pharmacy(
    name: string,
    userId: ObjectId,
    address: Address,
    certifications: seq<Certification>,
    image: string,
    helpers: seq<Helper>,
    verifiedAt: Option<int>,
    workingHours: map<string, DailyHours>,
    weekendPermanence: bool)

  /** `Date.getDay()` numbering: 0 is Sunday. */
  const DayNames: seq<string> := ["sunday", "monday", "tuesday", "wednesday", "thursday", "friday", "saturday"]

  const DefaultDailyHours := DailyHours("09:00", "18:00")

  /** The schema default: 09:00 to 18:00 on each of the seven days. */
  const DefaultWorkingHours: map<string, DailyHours> := map[
    "monday" := DefaultDailyHours, "tuesday" := DefaultDailyHours, "wednesday" := DefaultDailyHours,
    "thursday" := DefaultDailyHours, "friday" := DefaultDailyHours, "saturday" := DefaultDailyHours,
    "sunday" := DefaultDailyHours]

  /** The default hours cover exactly the seven days, each with the same window. */
  lemma DefaultWorkingHoursEveryDay()
    ensures DefaultWorkingHours.Keys == set d | d in DayNames
    ensures forall d | d in DefaultWorkingHours :: DefaultWorkingHours[d] == DailyHours("09:00", "18:00")
  {
  }

  function HelperEmails(helpers: seq<Helper>): (emails: seq<string>)
    ensures |emails| == |helpers|
    ensures forall i | 0 <= i < |helpers| :: emails[i] == helpers[i].email
  {
    if helpers == [] then [] else [helpers[0].email] + HelperEmails(helpers[1..])
  }

  /** The helpers validator: as many distinct e-mails as helpers. */
  predicate HelpersValid(helpers: seq<Helper>) {
    var emails := HelperEmails(helpers);
    |set e | e in emails| == |emails|
  }

  predicate Distinct(s: seq<string>) {
    forall i, j | 0 <= i < j < |s| :: s[i] != s[j]
  }

  /** A list has at most as many distinct elements as entries, and exactly as many when no entry repeats. */
  lemma {:induction false} DistinctCount(s: seq<string>)
    ensures |set e | e in s| <= |s|
    ensures |set e | e in s| == |s| <==> Distinct(s)
  {
    if s != [] {
      var rest := s[1..];
      DistinctCount(rest);
      var all := set e | e in s;
      var tail := set e | e in rest;
      assert all == {s[0]} + tail by {
        forall e | e in s ensures e == s[0] || e in rest {
          var i :| 0 <= i < |s| && s[i] == e;
          if i > 0 {
            assert rest[i - 1] == e;
          }
        }
      }
      if s[0] in rest {
        assert all == tail;
        var k :| 0 <= k < |rest| && rest[k] == s[0];
        assert s[0] == s[k + 1];
      } else {
        assert |all| == |tail| + 1;
        if Distinct(rest) {
          forall i, j | 0 <= i < j < |s| ensures s[i] != s[j] {
            if i == 0 {
              assert s[j] == rest[j - 1];
            } else {
              assert s[i] == rest[i - 1] && s[j] == rest[j - 1];
            }
          }
        } else {
          var i, j :| 0 <= i < j < |rest| && rest[i] == rest[j];
          assert s[i + 1] == s[j + 1];
        }
      }
    }
  }

  /** The helpers validator accepts exactly the lists whose e-mails are pairwise distinct. */
  lemma HelpersValidIffDistinct(helpers: seq<Helper>)
    ensures HelpersValid(helpers) <==> Distinct(HelperEmails(helpers))
  {
    DistinctCount(HelperEmails(helpers));
  }

  /** Two helpers with one e-mail are refused. */
  lemma SharedEmailRefused(helpers: seq<Helper>, i: nat, j: nat)
    requires i < j < |helpers| && helpers[i].email == helpers[j].email
    ensures !HelpersValid(helpers)
  {
    HelpersValidIffDistinct(helpers);
  }

  /** The pharmacy collection, shared by the services that read and save pharmacies. */
  class PharmacyStore {
    var pharmacies: map<ObjectId, Pharmacy>

    constructor ()
      ensures pharmacies == map[]
    {
      pharmacies := map[];
    }
  }
}
