/** components/UserProfile.tsx: the profile form, its validation chain and the payload it sends. */
module UserProfile {
  import opened Text
  import opened Domain
  import opened Effects

  const UsernameTooShort := "Username must be at least 3 characters long"
  const UsernameBadChars := "Username can only contain letters, numbers, underscores, and hyphens"
  const EmailInvalid := "Please enter a valid email address"
  const UpdateSucceeded := "Profile updated successfully!"
  const UpdateFailed := "Failed to update profile"

  /** The form fields; both start empty. */
  datatype ProfileData = ProfileData(username: string, email: string)

  /** The stored profile as the fetch returns it. */
  datatype ProfileRow = ProfileRow(username: Option<string>, email: Option<string>)

  /** One character of the class `[a-zA-Z0-9_-]`. */
  predicate UsernameChar(c: char)
  {
    ('a' <= c <= 'z') || ('A' <= c <= 'Z') || ('0' <= c <= '9') || c == '_' || c == '-'
  }

  /** `/^[a-zA-Z0-9_-]+$/.test(username)`. */
  predicate MatchesUsernamePattern(u: string)
  {
    |u| > 0 && forall i | 0 <= i < |u| :: UsernameChar(u[i])
  }

  /** An empty username, or one at least three UTF-16 units long made of allowed characters. */
  predicate UsernameAcceptable(u: string)
  {
    u == "" || (Utf16Length(u) >= 3 && MatchesUsernamePattern(u))
  }

  /** What an acceptable form looks like, independently of the order of the checks. */
  predicate Acceptable(d: ProfileData)
  {
    UsernameAcceptable(d.username) && (d.email == "" || '@' in d.email)
  }

  /** The checks at the top of `handleSubmit`: the first one that fails gives its message.
      An empty username skips both username checks; the length check precedes the pattern
      check; username problems take precedence over the email. */
  function Validate(d: ProfileData): (r: Option<string>)
    ensures d.username != "" && Utf16Length(d.username) < 3 ==> r == Some(UsernameTooShort)
    ensures Utf16Length(d.username) >= 3 && !MatchesUsernamePattern(d.username) ==> r == Some(UsernameBadChars)
    ensures UsernameAcceptable(d.username) && d.email != "" && '@' !in d.email ==> r == Some(EmailInvalid)
    ensures r.None? <==> Acceptable(d)
  {
    if d.username != "" && Utf16Length(d.username) < 3 then Some(UsernameTooShort)
    else if d.username != "" && !MatchesUsernamePattern(d.username) then Some(UsernameBadChars)
    else if d.email != "" && '@' !in d.email then Some(EmailInvalid)
    else None
  }

  /** An accepted username is made of ASCII characters, so its length in UTF-16 units is its
      number of characters, and it has at least three. */
  lemma AcceptedUsernameLength(u: string)
    requires u != "" && UsernameAcceptable(u)
    ensures Utf16Length(u) == |u| && |u| >= 3
  {
    Utf16LengthBmp(u);
  }

  /** A two-character username whose second character is outside the Basic Multilingual Plane
      is three UTF-16 units long, so it passes the length check and fails the pattern. */
  lemma AstralUsernameScenario()
    ensures Validate(ProfileData("a\U{1F600}", "")) == Some(UsernameBadChars)
  {
    var u := "a\U{1F600}";
    assert u[1..][1..] == [];
    assert Utf16Length(u) == 3;
    assert !UsernameChar(u[1]);
  }

  /** `value || null`: an empty field is sent as null. */
  function OrNull(s: string): (r: Option<string>)
    ensures r.None? <==> s == ""
    ensures r.Some? ==> r.value == s
  {
    if s == "" then None else Some(s)
  }

  /** `value || ''`, as the load effect reads a stored field back. */
  function OrEmpty(o: Option<string>): (s: string)
    ensures o.None? ==> s == ""
    ensures o.Some? ==> s == o.value
  {
    if o.Some? then o.value else ""
  }

  /** The `updateUserProfile` argument. */
  function Payload(wallet: string, d: ProfileData): (p: ProfileUpdate)
    ensures p.wallet_address == wallet
    ensures p.username == OrNull(d.username) && p.email == OrNull(d.email)
  {
    ProfileUpdate(wallet, OrNull(d.username), OrNull(d.email))
  }

  /** What the load effect puts in the form for a stored profile. */
  function Loaded(row: ProfileRow): (d: ProfileData)
    ensures d.username == OrEmpty(row.username) && d.email == OrEmpty(row.email)
  {
    ProfileData(OrEmpty(row.username), OrEmpty(row.email))
  }

  /** Saving a form and loading it back gives the same form: emptiness survives the trip
      through null. */
  lemma PayloadRoundTrip(wallet: string, d: ProfileData)
    ensures Loaded(ProfileRow(Payload(wallet, d).username, Payload(wallet, d).email)) == d
  {
  }

  class UserProfileView {
    var wallet: Wallet
    var isLoading: bool
    /** The status line; it also carries the success message. */
    var error: Option<string>
    var profileData: ProfileData
    var calls: seq<Call>

    constructor (w: Wallet)
      ensures wallet == w && !isLoading && error == None && profileData == ProfileData("", "") && calls == []
    {
      wallet := w;
      isLoading := false;
      error := None;
      profileData := ProfileData("", "");
      calls := [];
    }

    method Edit(d: ProfileData)
      modifies this`profileData
      ensures profileData == d
    {
      profileData := d;
    }

    /** `loadProfile`: with a wallet, a stored profile fills both fields; no profile or a
        failed fetch leaves the form as it was. */
    method LoadProfile(reply: Reply<Option<ProfileRow>>)
      modifies this`profileData, this`calls
      ensures wallet.None? ==> calls == old(calls) && profileData == old(profileData)
      ensures wallet.Some? ==> calls == old(calls) + [GetUserProfile(wallet.value)]
      ensures wallet.Some? && reply.Ok? && reply.value.Some? ==> profileData == Loaded(reply.value.value)
      ensures !(wallet.Some? && reply.Ok? && reply.value.Some?) ==> profileData == old(profileData)
    {
      if wallet.None? {
        return;
      }
      calls := calls + [GetUserProfile(wallet.value)];
      if reply.Ok? && reply.value.Some? {
        profileData := Loaded(reply.value.value);
      }
    }

    /** `handleSubmit`: nothing without a wallet; a validation failure shows its message and
        sends nothing; otherwise the payload is sent and the status line reports the outcome.
        Loading always ends false and the form fields are never changed. */
    method HandleSubmit(reply: Reply<()>)
      modifies this`isLoading, this`error, this`calls
      ensures wallet.None? ==> isLoading == old(isLoading) && error == old(error) && calls == old(calls)
      ensures wallet.Some? ==> !isLoading
      ensures wallet.Some? && Validate(profileData).Some? ==>
                error == Validate(profileData) && calls == old(calls)
      ensures wallet.Some? && Validate(profileData).None? ==>
                calls == old(calls) + [UpdateUserProfile(Payload(wallet.value, profileData))]
                && error == Some(if reply.Ok? then UpdateSucceeded else MessageOr(reply.thrown, UpdateFailed))
    {
      if wallet.None? {
        return;
      }
      isLoading := true;
      error := None;
      var problem := Validate(profileData);
      if problem.Some? {
        error := problem;
      } else {
        calls := calls + [UpdateUserProfile(Payload(wallet.value, profileData))];
        match reply {
          case Ok(_) => error := Some(UpdateSucceeded);
          case Threw(t) => error := Some(MessageOr(t, UpdateFailed));
        }
      }
      isLoading := false;
    }
  }
}
