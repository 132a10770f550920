/** The profile controller (`profileController.ts`): a module-level table
    of profiles keyed by the text of the caller's id, read with a fallback
    and sanitised, and overwritten per request by a whitelisted field
    merge, a preferences merge and a security-settings merge. Each request
    comes with the authenticated user, or none; `now` is the ISO text of
    the request's clock. */
module Profile {
  import opened Wrappers
  import Text
  import opened Store
  import AuthMiddleware

  /** The authenticated user the middleware puts on the request. */
  type RequestUser = AuthMiddleware.RequestUser

  /** A profile id: the demo profile's is the text `user1`; a profile made
      for a signed-in caller carries the caller's numeric id. */
  datatype ProfileId = Named(name: string) | Numbered(number: nat)

  datatype Activity = Activity(device: string, location: string, timestamp: string, ip: string)

  datatype Security = Security(
    twoFactorEnabled: bool, biometricEnabled: bool, lastLogin: string,
    loginActivity: seq<Activity>)

  /** Every field of a profile except `security`: what `updateProfile`
      answers with. */
  datatype Details = Details(
    id: ProfileId, email: string, firstName: string, lastName: string,
    phone: Option<string>, company: Option<string>, website: Option<string>,
    bio: Option<string>, avatar: Option<string>, role: Role,
    createdAt: string, updatedAt: string, preferences: map<string, string>)

  datatype UserProfile = UserProfile(details: Details, security: Security)

  /** The security keys a request body may set; a missing key keeps the
      stored value. */
  datatype SecurityPatch = SecurityPatch(
    twoFactorEnabled: Option<bool>, biometricEnabled: Option<bool>,
    lastLogin: Option<string>, loginActivity: Option<seq<Activity>>)

  /** The two flags `updateSecuritySettings` answers with. */
  datatype SecurityFlags = SecurityFlags(twoFactorEnabled: bool, biometricEnabled: bool)

  datatype Reject = Reject(status: nat, error: string)

  const Unauthenticated := Reject(401, "User not authenticated")

  /** The key of the demo profile, which also serves as the template. */
  const TemplateKey: string := "user1"

  const Template: UserProfile := UserProfile(
    Details(Named("user1"), "john.doe@example.com", "John", "Doe",
            Some("+1 (555) 123-4567"), Some("PayTech Solutions"),
            Some("https://paytech.example.com"),
            Some("Payment service provider focused on seamless transactions and merchant success."),
            None, Psp, "2024-01-15T10:00:00Z", "2024-01-28T15:30:00Z",
            map["language" := "en", "currency" := "USD", "timezone" := "America/New_York",
                "theme" := "light"]),
    Security(false, true, "2024-01-28T20:00:00Z",
             [Activity("iPhone 14 Pro", "New York, NY", "2024-01-28T20:00:00Z", "192.168.1.100"),
              Activity("MacBook Pro", "San Francisco, CA", "2024-01-28T18:00:00Z", "192.168.1.101")]))

  /** `userProfiles[user.id]`: the numeric id used as an object key. */
  function KeyOf(u: RequestUser): string {
    Text.NatText(u.id)
  }

  /** No signed-in caller's key is the template's, so no request ever
      overwrites the template. */
  lemma KeyIsNotTemplate(u: RequestUser)
    ensures KeyOf(u) != TemplateKey
  {
    var k := KeyOf(u);
    assert Text.IsDigit(k[0]);
    assert !Text.IsDigit(TemplateKey[0]);
  }

  // ---------------------------------------------------------------------
  // IP masking

  /** The length of the run of decimal digits that ends `s`. */
  function TrailingDigits(s: string): (d: nat)
    ensures d <= |s|
    ensures forall i :: |s| - d <= i < |s| ==> Text.IsDigit(s[i])
    ensures d < |s| ==> !Text.IsDigit(s[|s| - d - 1])
  {
    if s == [] || !Text.IsDigit(s[|s| - 1]) then 0 else TrailingDigits(s[..|s| - 1]) + 1
  }

  /** `ip.replace(/\.\d+$/, '.***')`: a final dot followed by one or more
      digits up to the end becomes `.***`; any other text is kept. */
  function MaskIp(ip: string): (r: string)
    ensures r != ip ==> |r| >= 4 && r[|r| - 4..] == ".***"
    ensures r != ip ==> r[..|r| - 3] <= ip
    ensures r != ip ==> r == ip[..|ip| - TrailingDigits(ip)] + "***"
    ensures r == ip <==> TrailingDigits(ip) == 0 || TrailingDigits(ip) == |ip|
                         || ip[|ip| - TrailingDigits(ip) - 1] != '.'
  {
    var d := TrailingDigits(ip);
    if d == 0 || d == |ip| || ip[|ip| - d - 1] != '.' then ip
    else
      var r := ip[..|ip| - d - 1] + ".***";
      assert r[|r| - 1] != ip[|ip| - 1] by {
        assert Text.IsDigit(ip[|ip| - 1]);
      }
      assert r == ip[..|ip| - d] + "***" by {
        assert ip[..|ip| - d] == ip[..|ip| - d - 1] + ['.'];
      }
      r
  }

  /** A masked address has no digits left to mask. */
  lemma MaskIpIdempotent(ip: string)
    ensures MaskIp(MaskIp(ip)) == MaskIp(ip)
  {
    var r := MaskIp(ip);
    if r != ip {
      assert r[|r| - 1] == '*';
      assert TrailingDigits(r) == 0;
    }
  }

  lemma MaskIpExamples()
    ensures MaskIp("192.168.1.100") == "192.168.1.***"
  {
    assert TrailingDigits("192.168.1.100") == 3 by {
      assert "192.168.1.100"[..12] == "192.168.1.10";
      assert "192.168.1.10"[..11] == "192.168.1.1";
      assert "192.168.1.1"[..10] == "192.168.1.";
    }
  }

  /** `getProfile`'s security view: the same activity entries with each
      address masked. */
  function Sanitize(s: Security): (r: Security)
    ensures |r.loginActivity| == |s.loginActivity|
    ensures forall i :: 0 <= i < |r.loginActivity| ==>
              r.loginActivity[i] == s.loginActivity[i].(ip := MaskIp(s.loginActivity[i].ip))
    ensures r.twoFactorEnabled == s.twoFactorEnabled && r.biometricEnabled == s.biometricEnabled
    ensures r.lastLogin == s.lastLogin
  {
    s.(loginActivity := seq(|s.loginActivity|, i requires 0 <= i < |s.loginActivity| =>
                              s.loginActivity[i].(ip := MaskIp(s.loginActivity[i].ip))))
  }

  lemma {:induction false} SanitizeIdempotent(s: Security)
    ensures Sanitize(Sanitize(s)) == Sanitize(s)
  {
    var once := Sanitize(s);
    var twice := Sanitize(once);
    assert |twice.loginActivity| == |once.loginActivity|;
    forall i | 0 <= i < |once.loginActivity|
      ensures twice.loginActivity[i] == once.loginActivity[i]
    {
      MaskIpIdempotent(s.loginActivity[i].ip);
    }
  }

  // ---------------------------------------------------------------------
  // reading

  /** `getProfile`'s choice: the stored profile, or else the template
      carrying the caller's own id, email and role. */
  function Shown(profiles: map<string, UserProfile>, u: RequestUser): (p: UserProfile)
    ensures KeyOf(u) in profiles ==> p == profiles[KeyOf(u)]
    ensures KeyOf(u) !in profiles ==>
              && p.details.id == Numbered(u.id) && p.details.email == u.email && p.details.role == u.role
              && p.security == Template.security
              && p.details.(id := Template.details.id, email := Template.details.email,
                            role := Template.details.role) == Template.details
  {
    if KeyOf(u) in profiles then profiles[KeyOf(u)]
    else Template.(details := Template.details.(id := Numbered(u.id), email := u.email, role := u.role))
  }

  /** `updateProfile`, `updatePreferences` and `updateSecuritySettings`
      start from the stored profile, or else from the template unchanged. */
  function Current(profiles: map<string, UserProfile>, u: RequestUser): (p: UserProfile)
    ensures KeyOf(u) in profiles ==> p == profiles[KeyOf(u)]
    ensures KeyOf(u) !in profiles ==> p == Template
  {
    if KeyOf(u) in profiles then profiles[KeyOf(u)] else Template
  }

  // ---------------------------------------------------------------------
  // the whitelisted merge

  /** The fields a profile update may set. */
  datatype FieldName = FirstName | LastName | Phone | Company | Website | Bio

  /** The key a request body uses for a field. */
  function Name(f: FieldName): string {
    match f
    case FirstName => "firstName"
    case LastName => "lastName"
    case Phone => "phone"
    case Company => "company"
    case Website => "website"
    case Bio => "bio"
  }

  const AllowedFields: seq<string> :=
    [Name(FirstName), Name(LastName), Name(Phone), Name(Company), Name(Website), Name(Bio)]

  /** The value of a whitelisted field; `None` for an optional field that
      is not set. */
  function Field(d: Details, f: FieldName): Option<string> {
    match f
    case FirstName => Some(d.firstName)
    case LastName => Some(d.lastName)
    case Phone => d.phone
    case Company => d.company
    case Website => d.website
    case Bio => d.bio
  }

  /** The keys of `updates` the whitelist lets through, with their values. */
  function Whitelisted(updates: map<string, string>): map<string, string> {
    map f | f in updates && f in AllowedFields :: updates[f]
  }

  /** `{...current, ...filteredUpdates, updatedAt}`: each field whose key
      is present takes the given value; everything else is kept, except
      `updatedAt`. */
  function Merged(d: Details, filtered: map<string, string>, now: string): (r: Details)
    ensures forall f :: Field(r, f) == if Name(f) in filtered then Some(filtered[Name(f)]) else Field(d, f)
    ensures r.id == d.id && r.email == d.email && r.role == d.role
    ensures r.avatar == d.avatar && r.createdAt == d.createdAt && r.preferences == d.preferences
    ensures r.updatedAt == now
  {
    d.(firstName := if Name(FirstName) in filtered then filtered[Name(FirstName)] else d.firstName,
       lastName := if Name(LastName) in filtered then filtered[Name(LastName)] else d.lastName,
       phone := if Name(Phone) in filtered then Some(filtered[Name(Phone)]) else d.phone,
       company := if Name(Company) in filtered then Some(filtered[Name(Company)]) else d.company,
       website := if Name(Website) in filtered then Some(filtered[Name(Website)]) else d.website,
       bio := if Name(Bio) in filtered then Some(filtered[Name(Bio)]) else d.bio,
       updatedAt := now)
  }

  /** The loop that copies the defined allowed fields out of the body. */
  method FilterUpdates(updates: map<string, string>) returns (filtered: map<string, string>)
    ensures forall f :: f in filtered <==> f in updates && f in AllowedFields
    ensures forall f :: f in filtered ==> filtered[f] == updates[f]
    ensures filtered == Whitelisted(updates)
  {
    filtered := map[];
    for i := 0 to |AllowedFields|
      invariant forall f :: f in filtered <==> f in updates && f in AllowedFields[..i]
      invariant forall f :: f in filtered ==> filtered[f] == updates[f]
    {
      var field := AllowedFields[i];
      if field in updates {
        filtered := filtered[field := updates[field]];
      }
      assert AllowedFields[..i + 1] == AllowedFields[..i] + [field];
    }
    assert AllowedFields[..|AllowedFields|] == AllowedFields;
  }

  /** Keys outside the whitelist, such as `email`, `role` or `security`,
      make no difference to an update. */
  lemma OtherKeysIgnored(d: Details, u1: map<string, string>, u2: map<string, string>, now: string)
    requires forall f :: f in AllowedFields ==> (f in u1 <==> f in u2)
    requires forall f :: f in AllowedFields && f in u1 ==> u1[f] == u2[f]
    ensures Merged(d, Whitelisted(u1), now) == Merged(d, Whitelisted(u2), now)
  {
    assert Whitelisted(u1) == Whitelisted(u2);
  }

  // ---------------------------------------------------------------------
  // preferences and security settings

  /** `{...current.preferences, ...body}`: the body's keys win. */
  function MergePreferences(current: map<string, string>, body: map<string, string>): (r: map<string, string>)
    ensures r.Keys == current.Keys + body.Keys
    ensures forall k :: k in body ==> r[k] == body[k]
    ensures forall k :: k in current && k !in body ==> r[k] == current[k]
  {
    current + body
  }

  /** `{...current.security, ...body}` over the four security keys. */
  function PatchSecurity(s: Security, patch: SecurityPatch): Security {
    Security(patch.twoFactorEnabled.GetOr(s.twoFactorEnabled),
             patch.biometricEnabled.GetOr(s.biometricEnabled),
             patch.lastLogin.GetOr(s.lastLogin),
             patch.loginActivity.GetOr(s.loginActivity))
  }

  /** Sending the same security settings twice is the same as once, and
      an empty body changes nothing. */
  lemma PatchSecurityIdempotent(s: Security, patch: SecurityPatch)
    ensures PatchSecurity(PatchSecurity(s, patch), patch) == PatchSecurity(s, patch)
    ensures PatchSecurity(s, SecurityPatch(None, None, None, None)) == s
  {
  }

  // ---------------------------------------------------------------------
  // the table

  class ProfileStore {
    var profiles: map<string, UserProfile>

    /** The demo profile stays under its key, unchanged. */
    predicate Valid()
      reads this
    {
      TemplateKey in profiles && profiles[TemplateKey] == Template
    }

    constructor ()
      ensures Valid()
      ensures profiles == map[TemplateKey := Template]
    {
      profiles := map[TemplateKey := Template];
    }

    /** `GET /profile`: the shown profile with its security sanitised. */
    method GetProfile(caller: Option<RequestUser>) returns (r: Result<UserProfile, Reject>)
      ensures caller.None? <==> r == Err(Unauthenticated)
      ensures caller.Some? ==>
                var p := Shown(profiles, caller.value);
                r == Ok(UserProfile(p.details, Sanitize(p.security)))
    {
      if caller.None? {
        return Err(Unauthenticated);
      }
      var profile := Shown(profiles, caller.value);
      r := Ok(UserProfile(profile.details, Sanitize(profile.security)));
    }

    /** `PUT /profile`: the whitelisted merge over the current profile,
        stored under the caller's key and answered without `security`. */
    method UpdateProfile(caller: Option<RequestUser>, updates: map<string, string>, now: string)
      returns (r: Result<Details, Reject>)
      requires Valid()
      modifies this
      ensures Valid()
      ensures caller.None? ==> r == Err(Unauthenticated) && profiles == old(profiles)
      ensures caller.Some? ==>
                var cur := Current(old(profiles), caller.value);
                var updated := UserProfile(Merged(cur.details, Whitelisted(updates), now), cur.security);
                && profiles == old(profiles)[KeyOf(caller.value) := updated]
                && r == Ok(updated.details)
    {
      if caller.None? {
        return Err(Unauthenticated);
      }
      var filtered := FilterUpdates(updates);
      var current := Current(profiles, caller.value);
      var updated := UserProfile(Merged(current.details, filtered, now), current.security);
      KeyIsNotTemplate(caller.value);
      profiles := profiles[KeyOf(caller.value) := updated];
      r := Ok(updated.details);
    }

    /** `PUT /profile/preferences`: the body merged over the current
        preferences; answers the merged preferences. */
    method UpdatePreferences(caller: Option<RequestUser>, body: map<string, string>, now: string)
      returns (r: Result<map<string, string>, Reject>)
      requires Valid()
      modifies this
      ensures Valid()
      ensures caller.None? ==> r == Err(Unauthenticated) && profiles == old(profiles)
      ensures caller.Some? ==>
                var cur := Current(old(profiles), caller.value);
                var prefs := MergePreferences(cur.details.preferences, body);
                && profiles == old(profiles)[KeyOf(caller.value) :=
                                             cur.(details := cur.details.(preferences := prefs, updatedAt := now))]
                && r == Ok(prefs)
    {
      if caller.None? {
        return Err(Unauthenticated);
      }
      var current := Current(profiles, caller.value);
      var prefs := MergePreferences(current.details.preferences, body);
      KeyIsNotTemplate(caller.value);
      profiles := profiles[KeyOf(caller.value) :=
                           current.(details := current.details.(preferences := prefs, updatedAt := now))];
      r := Ok(prefs);
    }

    /** `PUT /profile/security`: the body merged over the current security
        settings; answers only the two flags. */
    method UpdateSecuritySettings(caller: Option<RequestUser>, patch: SecurityPatch, now: string)
      returns (r: Result<SecurityFlags, Reject>)
      requires Valid()
      modifies this
      ensures Valid()
      ensures caller.None? ==> r == Err(Unauthenticated) && profiles == old(profiles)
      ensures caller.Some? ==>
                var cur := Current(old(profiles), caller.value);
                var security := PatchSecurity(cur.security, patch);
                && profiles == old(profiles)[KeyOf(caller.value) :=
                                             UserProfile(cur.details.(updatedAt := now), security)]
                && r == Ok(SecurityFlags(security.twoFactorEnabled, security.biometricEnabled))
                && (patch.twoFactorEnabled.Some? ==> r.value.twoFactorEnabled == patch.twoFactorEnabled.value)
                && (patch.biometricEnabled.Some? ==> r.value.biometricEnabled == patch.biometricEnabled.value)
    {
      if caller.None? {
        return Err(Unauthenticated);
      }
      var current := Current(profiles, caller.value);
      var security := PatchSecurity(current.security, patch);
      KeyIsNotTemplate(caller.value);
      profiles := profiles[KeyOf(caller.value) := UserProfile(current.details.(updatedAt := now), security)];
      r := Ok(SecurityFlags(security.twoFactorEnabled, security.biometricEnabled));
    }
  }

  // ---------------------------------------------------------------------
  // a caller's identity across an update

  /** As written: a caller with no stored profile sees their own email in
      `getProfile`, but after `updateProfile` stores the template-based
      profile, `getProfile` shows the template's email and id. */
  lemma UpdateReplacesIdentity(profiles: map<string, UserProfile>, u: RequestUser,
                               updates: map<string, string>, now: string)
    requires KeyOf(u) !in profiles
    ensures Shown(profiles, u).details.email == u.email
    ensures var cur := Current(profiles, u);
            var after := profiles[KeyOf(u) := UserProfile(Merged(cur.details, Whitelisted(updates), now),
                                                          cur.security)];
            && Shown(after, u).details.email == Template.details.email
            && Shown(after, u).details.id == Named("user1")
  {
  }

  /** Intended: the update starts from the same fallback `getProfile`
      shows, so the caller keeps their own id, email and role. */
  function CurrentAsShown(profiles: map<string, UserProfile>, u: RequestUser): (p: UserProfile)
    ensures p.details.id == (if KeyOf(u) in profiles then profiles[KeyOf(u)].details.id else Numbered(u.id))
    ensures KeyOf(u) !in profiles ==> p.details.email == u.email && p.details.role == u.role
  {
    Shown(profiles, u)
  }

  lemma UpdateAsShownKeepsIdentity(profiles: map<string, UserProfile>, u: RequestUser,
                                   updates: map<string, string>, now: string)
    requires KeyOf(u) !in profiles
    ensures var cur := CurrentAsShown(profiles, u);
            var after := profiles[KeyOf(u) := UserProfile(Merged(cur.details, Whitelisted(updates), now),
                                                          cur.security)];
            && Shown(after, u).details.email == u.email
            && Shown(after, u).details.id == Numbered(u.id)
            && Shown(after, u).details.role == u.role
  {
  }
}
