/**
 * The profile hooks of the services module: the completeness flag, the
 * domain-based permission level and the report-triggered ban. The first two
 * act on the in-memory instance handed to the hook, so they take and return
 * a `Profile` value; the ban saves the profile, so it acts on the database.
 */
module Services {
  import opened Wrappers
  import opened Text
  import opened Models

  /**
   * Whether a profile is complete: a name, a hostel, and a contact number
   * that is not the empty string. A NULL contact number compares unequal to
   * the empty string, so it counts as given.
   */
  function IsComplete(p: Profile): (complete: bool)
    ensures complete <==> p.name != "" && p.hostel != "" && (p.contactNo.None? || p.contactNo.value != "")
  {
    p.name != "" && p.hostel != "" && p.contactNo != Some("")
  }

  /**
   * `update_is_complete`, run before a profile is saved: sets `isComplete`
   * and touches nothing else.
   */
  method UpdateIsComplete(instance: Profile) returns (updated: Profile)
    ensures updated.isComplete <==> IsComplete(instance)
    ensures updated.(isComplete := instance.isComplete) == instance
  {
    updated := instance;
    if instance.name != "" && instance.hostel != "" && instance.contactNo != Some("") {
      updated := updated.(isComplete := true);
    } else {
      updated := updated.(isComplete := false);
    }
  }

  /**
   * A complete profile has all three fields; one missing field, or an empty
   * contact number, makes it incomplete; a NULL contact number does not.
   */
  lemma CompletenessCases(p: Profile)
    ensures p.name == "" || p.hostel == "" ==> !IsComplete(p)
    ensures p.contactNo == Some("") ==> !IsComplete(p)
    ensures p.name != "" && p.hostel != "" && p.contactNo.None? ==> IsComplete(p)
    ensures IsComplete(p) <==> p.name != "" && p.hostel != ""
                               && (p.contactNo.None? || p.contactNo.value != "")
  {
  }

  /**
   * `set_permission_level`, run after a profile is saved. With an empty
   * address nothing happens. Otherwise the domain is the second `@`-piece of
   * the address, and an address without `@` raises. Only the non-campus
   * branch assigns, so the only level it can ever write is BUYER; the change
   * is made on the instance after it was written and is not saved.
   */
  method SetPermissionLevel(instance: Profile) returns (r: Result<Profile, Exc>)
    ensures instance.email == "" ==> r == Success(instance)
    ensures instance.email != "" && '@' !in instance.email ==> r == Failure(IndexError)
    ensures r.Failure? ==> instance.email != "" && '@' !in instance.email
    ensures r.Success? ==> r.value == instance.(permissionLevel := r.value.permissionLevel)
    ensures r.Success? ==> r.value.permissionLevel in {instance.permissionLevel, BUYER}
    ensures instance.email != "" && DomainOf(instance.email) == Some(BITS_DOMAIN) ==> r == Success(instance)
    ensures instance.email != "" && DomainOf(instance.email).Some? && DomainOf(instance.email) != Some(BITS_DOMAIN) ==>
              r == Success(instance.(permissionLevel := BUYER))
  {
    var profile := instance;
    if instance.email != "" {
      var parts := Split(instance.email, '@');
      if |parts| < 2 {
        return Failure(IndexError);
      }
      var domain := parts[1];
      var level;
      if domain == BITS_DOMAIN {
        level := SELLER;
      } else {
        level := BUYER;
        profile := profile.(permissionLevel := level);
      }
    }
    r := Success(profile);
  }

  /**
   * The level the ban rule gives a profile with `count` reports: BANNED past
   * the threshold, the current level otherwise.
   */
  function LevelAfterReports(level: int, count: int): (l: int)
    ensures count > MAX_ALLOWED_REPORTS ==> l == BANNED
    ensures count <= MAX_ALLOWED_REPORTS ==> l == level
  {
    if count > MAX_ALLOWED_REPORTS then BANNED else level
  }

  /**
   * The rule re-evaluates on every report: once past the threshold, further
   * reports keep the profile banned, applying it again changes nothing, and
   * it never raises a level.
   */
  lemma LevelRuleIsAValve(level: int, count: int, more: nat)
    requires BANNED <= level
    ensures LevelAfterReports(level, count) <= level
    ensures LevelAfterReports(LevelAfterReports(level, count), count) == LevelAfterReports(level, count)
    ensures LevelAfterReports(level, count) == BANNED && count > MAX_ALLOWED_REPORTS ==>
              LevelAfterReports(level, count + more) == BANNED
  {
  }

  /**
   * `moderate_profile`, run after a user report is saved: past the threshold
   * the reported profile is set to BANNED and saved. `Profile.save` then
   * re-derives the level from the address, so the ban does not survive:
   * the stored level ends up BUYER.
   */
  method ModerateProfile(db: Db, report: UserReport)
    requires db.Valid() && report.reportedUser in db.profiles
    modifies db`profiles
    ensures db.Valid()
    ensures UserReportCount(db.userReports, report.reportedUser) <= MAX_ALLOWED_REPORTS ==>
              db.profiles == old(db.profiles)
    ensures UserReportCount(db.userReports, report.reportedUser) > MAX_ALLOWED_REPORTS ==>
              var p := old(db.profiles)[report.reportedUser];
              db.profiles == old(db.profiles)[report.reportedUser := p.(permissionLevel := SavedLevel(p.email))]
    ensures UserReportCount(db.userReports, report.reportedUser) > MAX_ALLOWED_REPORTS ==>
              db.profiles[report.reportedUser].permissionLevel == BUYER
              != LevelAfterReports(old(db.profiles)[report.reportedUser].permissionLevel,
                                   UserReportCount(db.userReports, report.reportedUser))
  {
    var profile := db.profiles[report.reportedUser];
    if UserReportCount(db.userReports, report.reportedUser) > MAX_ALLOWED_REPORTS {
      profile := profile.(permissionLevel := BANNED);
      db.SaveProfile(report.reportedUser, profile);
    }
  }
}
