/**
 * Account creation from an email address, and the random password helper.
 * The randomness of `random.sample` is a parameter: the positions it picks.
 */
module Auth {
  import opened Wrappers
  import opened Text
  import opened Models

  /** The characters a generated password is drawn from; note that '0' occurs twice. */
  const ALPHABET: string := LOWER + DIGITS + UPPER + SYMBOLS

  const LOWER: string := "abcdefghijklmnopqrstuvwxyz"
  const DIGITS: string := "01234567890"
  const UPPER: string := "ABCDEFGHIJKLMNOPQRSTUVWXYZ"
  const SYMBOLS: string := "!@#$%^&*()?"

  /** The length of a generated password. */
  const PASSWORD_LENGTH: nat := 8

  /**
   * What `random.sample` may pick: PASSWORD_LENGTH distinct positions of
   * the alphabet.
   */
  predicate ValidSample(picks: seq<int>)
  {
    && |picks| == PASSWORD_LENGTH
    && (forall i :: 0 <= i < |picks| ==> 0 <= picks[i] < |ALPHABET|)
    && (forall i, j :: 0 <= i < j < |picks| ==> picks[i] != picks[j])
  }

  /**
   * `generate_random_password` for the sampled positions `picks`: the
   * characters at those positions, joined in order.
   */
  function Password(picks: seq<int>): (p: string)
    requires ValidSample(picks)
    ensures |p| == PASSWORD_LENGTH
    ensures forall i :: 0 <= i < |p| ==> p[i] in ALPHABET
  {
    seq(|picks|, i requires 0 <= i < |picks| => ALPHABET[picks[i]])
  }

  /**
   * Distinct positions need not give distinct characters: the two '0's of
   * the alphabet can both be picked.
   */
  lemma PasswordMayRepeatCharacters()
    ensures ValidSample([26, 36, 0, 1, 2, 3, 4, 5])
    ensures var p := Password([26, 36, 0, 1, 2, 3, 4, 5]);
            p[0] == p[1] == '0'
  {
    assert |LOWER| == 26 && |DIGITS| == 11;
    assert ALPHABET[26] == DIGITS[0] == '0';
    assert ALPHABET[36] == DIGITS[10] == '0';
  }

  /**
   * `create_user_from_email`: the part before the `@` becomes the username
   * and the full address is stored on the account and the profile. An
   * address without exactly one `@` fails to unpack; a taken username fails
   * the unique index. A password is generated and then discarded, so the
   * account keeps the empty password.
   */
  method CreateUserFromEmail(db: Db, email: string, picks: seq<int>) returns (r: Result<int, Exc>)
    requires db.Valid() && ValidSample(picks)
    modifies db`users, db`usernames, db`profileOf, db`profiles, db`wishlists, db`nextUser, db`nextProfile
    ensures db.Valid()
    ensures Occurrences(email, '@') != 1 ==> r == Failure(ValueError) && unchanged(db)
    ensures Occurrences(email, '@') == 1 && Split(email, '@')[0] in old(db.usernames) ==>
              r == Failure(IntegrityError) && unchanged(db)
    ensures r.Success? ==>
              && Occurrences(email, '@') == 1
              && var username := Split(email, '@')[0];
              && r.value !in old(db.users)
              && db.users == old(db.users)[r.value := User(username, email, "")]
              && db.profileOf[r.value] !in old(db.profiles)
              && db.profileOf == old(db.profileOf)[r.value := db.profileOf[r.value]]
              && db.profiles == old(db.profiles)[db.profileOf[r.value] :=
                   DefaultProfile(r.value).(email := email, permissionLevel := BUYER)]
              && db.wishlists == old(db.wishlists)[db.profileOf[r.value] := {}]
    ensures r.Success? <==> Occurrences(email, '@') == 1 && Split(email, '@')[0] !in old(db.usernames)
  {
    var parts := Split(email, '@');
    if |parts| != 2 {
      return Failure(ValueError);
    }
    var username := parts[0];
    var saved := db.SaveNewUser(username, email);
    if saved.Failure? {
      return saved;
    }
    var u := saved.value;
    var password := Password(picks);
    var pid := db.profileOf[u];
    var profile := db.profiles[pid].(email := email);
    db.SaveProfile(pid, profile);
    r := Success(u);
  }

  /**
   * For a well-formed address the username is exactly the local part and
   * the domain is not kept in it.
   */
  lemma {:induction false} UsernameIsLocalPart(local: string, domain: string)
    requires '@' !in local && '@' !in domain
    ensures Occurrences(local + "@" + domain, '@') == 1
    ensures Split(local + "@" + domain, '@')[0] == local
  {
    SplitAround(local, domain, '@');
  }

  /** An address with no `@`, or with two, is refused. */
  lemma {:induction false} MalformedAddresses(a: string, b: string, c: string)
    requires '@' !in a && '@' !in b && '@' !in c
    ensures Occurrences(a, '@') == 0
    ensures Occurrences(a + "@" + b + "@" + c, '@') == 2
  {
    OccurrencesAbsent(a, '@');
    OccurrencesAbsent(b, '@');
    OccurrencesAbsent(c, '@');
    OccurrencesAppend(a, "@", '@');
    OccurrencesAppend(a + "@", b, '@');
    OccurrencesAppend(a + "@" + b, "@", '@');
    OccurrencesAppend(a + "@" + b + "@", c, '@');
  }
}
