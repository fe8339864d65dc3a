/**
 The profile form (src/components/profile/ProfileForm.tsx): the values it starts from, how a
 stored profile is laid over the schema defaults, the news-category checkboxes and their
 labels, validation, and what a save writes.
 */
module ProfileForm {
  import opened Wrappers
  import opened Text
  import opened Seqs
  import opened Json
  import opened Schemas
  import NewsCategories

  // ---------------------------------------------------------------------------
  // Names from the auth display name

  datatype Names = Names(first: string, last: string)

  /** With no stored document: the first " "-piece of the display name, and the remaining pieces
      joined back with " "; both empty when there is no display name. */
  function NamesFromDisplayName(displayName: Option<string>): (r: Names)
    ensures displayName.None? ==> r == Names("", "")
    ensures displayName.Some? && ' ' !in displayName.value ==> r == Names(displayName.value, "")
    ensures displayName.Some? ==> ' ' !in r.first
    ensures displayName.Some? && ' ' in displayName.value ==> r.first + " " + r.last == displayName.value
  {
    match displayName
    case None => Names("", "")
    case Some(d) =>
      if ' ' in d then NamesRejoin(d); SplitNames(d)
      else SplitNames(d)
  }

  /** The first " "-piece of `d` and the remaining pieces joined with " " (`|| ''` changes
      nothing, since the fallback is itself empty). */
  function SplitNames(d: string): (r: Names)
    ensures ' ' !in r.first
  {
    var pieces := Split(d, ' ');
    Names(OrDefault(pieces[0], ""), OrDefault(Join(pieces[1..], " "), ""))
  }

  /** When the display name has a space, the two names with a space between give it back. */
  lemma {:induction false} NamesRejoin(d: string)
    requires ' ' in d
    ensures var n := SplitNames(d); n.first + " " + n.last == d
  {
    var pieces := Split(d, ' ');
    JoinSplit(d, ' ');
    assert |pieces| >= 2;
    assert Join(pieces, [' ']) == pieces[0] + [' '] + Join(pieces[1..], [' ']);
    assert [' '] == " ";
  }

  // ---------------------------------------------------------------------------
  // The stored profile over the defaults

  /** `{...UserProfileSchema.parse({}), ...(stored || {}), newsSearchCategories: …}`: the defaults,
      then every key of a stored object, then the category list. */
  function OverlayFields(stored: Value): map<string, Value> {
    var over := if stored.Obj? then stored.fields else map[];
    var categories := Get(over, "newsSearchCategories");
    var list := if categories == Undefined || categories == Null then Arr([]) else categories;
    ProfileFields(UserDefaultProfile) + over + map["newsSearchCategories" := list]
  }

  /** The profile the form starts from: the overlay parsed, or the pure defaults when that parse
      fails. */
  function OverlayProfile(stored: Value): (r: UserProfile)
    ensures ProfileOk(r)
    ensures ParseProfile(Obj(OverlayFields(stored))).None? ==> r == UserDefaultProfile
  {
    UserDefaultMatchesProfileDefaults();
    ParseProfile(Obj(OverlayFields(stored))).GetOr(UserDefaultProfile)
  }

  /** Only the ten schema keys matter to the profile parse: a key outside them, such as the
      category list, is dropped. */
  lemma OtherKeysIgnored(m: map<string, Value>, k: string, v: Value)
    requires k !in ProfileFields(UserDefaultProfile)
    ensures ParseProfile(Obj(m[k := v])) == ParseProfile(Obj(m))
  {
    assert forall key | key in ProfileFields(UserDefaultProfile) :: Get(m[k := v], key) == Get(m, key);
    ProfileKeys();
  }

  /** The keys of a stored profile are exactly the schema's ten. */
  lemma ProfileKeys()
    ensures forall p: UserProfile :: ProfileFields(p).Keys == ProfileFields(UserDefaultProfile).Keys
    ensures "fitnessLevel" in ProfileFields(UserDefaultProfile)
    ensures "runningExperience" in ProfileFields(UserDefaultProfile)
    ensures "goal" in ProfileFields(UserDefaultProfile)
    ensures "daysPerWeek" in ProfileFields(UserDefaultProfile)
    ensures "preferredWorkoutTypes" in ProfileFields(UserDefaultProfile)
    ensures "availableTime" in ProfileFields(UserDefaultProfile)
    ensures "equipmentAvailable" in ProfileFields(UserDefaultProfile)
    ensures "newsSources" in ProfileFields(UserDefaultProfile)
    ensures "locationCity" in ProfileFields(UserDefaultProfile)
    ensures "weatherUnit" in ProfileFields(UserDefaultProfile)
    ensures "newsSearchCategories" !in ProfileFields(UserDefaultProfile)
  {
  }

  /** A stored profile that meets the schema comes back unchanged: every key overrides its
      default. */
  lemma StoredProfileKept(p: UserProfile)
    requires ProfileOk(p)
    ensures OverlayProfile(Obj(ProfileFields(p))) == p
  {
    ProfileKeys();
    var m := ProfileFields(p);
    assert ProfileFields(UserDefaultProfile) + m == m;
    var over := OverlayFields(Obj(m));
    assert over == m["newsSearchCategories" := over["newsSearchCategories"]];
    OtherKeysIgnored(m, "newsSearchCategories", over["newsSearchCategories"]);
    ProfileRoundTrip(p);
  }

  /** A stored profile that breaks the schema is dropped whole: the form gets the pure defaults,
      not the defaults with the valid stored fields. */
  lemma BrokenProfileFallsBack(p: UserProfile)
    requires !ProfileOk(p)
    ensures OverlayProfile(Obj(ProfileFields(p))) == UserDefaultProfile
  {
    ProfileKeys();
    var m := ProfileFields(p);
    assert ProfileFields(UserDefaultProfile) + m == m;
    var over := OverlayFields(Obj(m));
    assert over == m["newsSearchCategories" := over["newsSearchCategories"]];
    OtherKeysIgnored(m, "newsSearchCategories", over["newsSearchCategories"]);
    ProfileRoundTrip(p);
  }

  /** Without a stored profile object the form starts from the schema defaults. */
  lemma MissingProfileGivesDefaults(stored: Value)
    requires !stored.Obj?
    ensures OverlayProfile(stored) == UserDefaultProfile
  {
    ProfileKeys();
    var d := ProfileFields(UserDefaultProfile);
    assert OverlayFields(stored) == d["newsSearchCategories" := Arr([])];
    OtherKeysIgnored(d, "newsSearchCategories", Arr([]));
    ProfileRoundTrip(UserDefaultProfile);
    UserDefaultMatchesProfileDefaults();
  }

  /** A stored profile holding only a city keeps every other default. */
  lemma CityOnlyProfile(city: string)
    ensures OverlayProfile(Obj(map["locationCity" := Str(city)])) == UserDefaultProfile.(locationCity := city)
  {
    ProfileKeys();
    var p := UserDefaultProfile.(locationCity := city);
    var m := ProfileFields(p);
    assert ProfileFields(UserDefaultProfile) + map["locationCity" := Str(city)] == m;
    OtherKeysIgnored(m, "newsSearchCategories", Arr([]));
    UserDefaultMatchesProfileDefaults();
    ProfileRoundTrip(p);
  }

  // ---------------------------------------------------------------------------
  // The news-category checkboxes

  /** A box is checked when the field's list holds its value; an unset list checks nothing. */
  predicate IsChecked(current: Option<seq<string>>, value: string)
    ensures current.None? ==> !IsChecked(current, value)
  {
    current.Some? && value in current.value
  }

  function Other(value: string): string -> bool {
    (x: string) => x != value
  }

  /** `onCheckedChange`: checking appends the value with no test for a copy already there;
      unchecking keeps everything but the value, every copy of it removed. */
  function Toggle(current: Option<seq<string>>, value: string, checked: bool): (r: seq<string>)
    ensures var list := current.GetOr([]);
      checked ==> |r| == |list| + 1 && r[..|list|] == list && r[|list|] == value
    ensures var list := current.GetOr([]);
      !checked ==> value !in r && IsSubseq(r, list)
                   && forall i :: 0 <= i < |list| && list[i] != value ==> list[i] in r
  {
    var list := current.GetOr([]);
    if checked then list + [value] else Filter(Other(value), list)
  }

  /** After a change the box shows what was chosen. */
  lemma ToggleShowsChoice(current: Option<seq<string>>, value: string, checked: bool)
    ensures IsChecked(Some(Toggle(current, value, checked)), value) == checked
  {
    var r := Toggle(current, value, checked);
    if checked {
      assert r[|r| - 1] == value;
    }
  }

  /** Checking adds one more copy of the value, even when it is already there, and nothing else. */
  lemma CheckAddsACopy(current: Option<seq<string>>, value: string)
    ensures multiset(Toggle(current, value, true)) == multiset(current.GetOr([])) + multiset{value}
  {
  }

  /** Unchecking keeps every other value with all its copies, in order. */
  lemma {:induction false} UncheckKeepsOthers(list: seq<string>, value: string, other: string)
    requires other != value
    ensures multiset(Toggle(Some(list), value, false))[other] == multiset(list)[other]
    ensures IsSubseq(Toggle(Some(list), value, false), list)
    decreases |list|
  {
    if |list| > 0 {
      UncheckKeepsOthers(list[1..], value, other);
      assert list == [list[0]] + list[1..];
    }
  }

  /** Checking and then unchecking a box is the same as unchecking it: the earlier copies of
      the value go too. */
  lemma CheckThenUncheck(list: seq<string>, value: string)
    ensures Toggle(Some(Toggle(Some(list), value, true)), value, false) == Toggle(Some(list), value, false)
  {
    FilterAppend(Other(value), list, [value]);
    assert Filter(Other(value), [value]) == [];
  }

  // ---------------------------------------------------------------------------
  // Category labels

  /** `\w`: ASCII letters, digits and the underscore. */
  predicate IsWordChar(c: char) {
    'a' <= c <= 'z' || 'A' <= c <= 'Z' || '0' <= c <= '9' || c == '_'
  }

  /** `\b\w` matches at `i`: a word character not preceded by one. */
  predicate StartsWord(s: string, i: nat)
    requires i < |s|
  {
    IsWordChar(s[i]) && (i == 0 || !IsWordChar(s[i - 1]))
  }

  /** `s.replace(/\b\w/g, l => l.toUpperCase())`: a word character not preceded by one is
      upper-cased. */
  function CapitalizeWords(s: string): (r: string)
    ensures |r| == |s|
    ensures forall i :: 0 <= i < |s| ==> r[i] == s[i] || r[i] == Upper(s[i])
    ensures forall i :: 0 <= i < |s| && StartsWord(s, i) ==> r[i] == Upper(s[i])
    ensures forall i :: 0 <= i < |s| && !StartsWord(s, i) ==> r[i] == s[i]
  {
    seq(|s|, i requires 0 <= i < |s| => if StartsWord(s, i) then Upper(s[i]) else s[i])
  }

  /** The checkbox label of a category value: underscores become spaces, then each word gets a
      capital first letter. */
  function Label(value: string): (r: string)
    ensures |r| == |value|
    ensures '_' !in r
    ensures forall i :: 0 <= i < |value| && value[i] == '_' ==> r[i] == ' '
    ensures forall i :: 0 <= i < |value| && LabelWordStart(value, i) ==> r[i] == Upper(value[i])
    ensures forall i :: 0 <= i < |value| && value[i] != '_' && !LabelWordStart(value, i) ==> r[i] == value[i]
  {
    var spaced := ReplaceAll(value, '_', ' ');
    var r := CapitalizeWords(spaced);
    assert forall i :: 0 <= i < |r| ==> r[i] != '_' by {
      forall i | 0 <= i < |r| ensures r[i] != '_' {
        assert spaced[i] != '_';
      }
    }
    r
  }

  /** Position `i` of a category value begins a word of its label: a word character other than
      the underscore, first or after an underscore or a non-word character. */
  predicate LabelWordStart(value: string, i: nat)
    requires i < |value|
  {
    value[i] != '_' && IsWordChar(value[i])
    && (i == 0 || value[i - 1] == '_' || !IsWordChar(value[i - 1]))
  }

  /** The shape of a category value: lower-case letters and underscores. */
  predicate SnakeCase(value: string) {
    forall i :: 0 <= i < |value| ==> 'a' <= value[i] <= 'z' || value[i] == '_'
  }

  /** The label of a snake-case value gives the value back: lower-case it and turn spaces into
      underscores. */
  lemma LabelRoundTrip(value: string)
    requires SnakeCase(value)
    ensures ReplaceAll(ToLower(Label(value)), ' ', '_') == value
  {
    var spaced := ReplaceAll(value, '_', ' ');
    var r := Label(value);
    var back := ReplaceAll(ToLower(r), ' ', '_');
    forall i | 0 <= i < |value|
      ensures back[i] == value[i]
    {
      if value[i] == '_' {
        assert spaced[i] == ' ' && !IsWordChar(spaced[i]);
      } else {
        assert spaced[i] == value[i];
      }
    }
  }

  /** Each word of the label starts with a capital: a letter at the start or after a space. */
  lemma LabelCapitalizesWords(value: string, i: nat)
    requires SnakeCase(value) && i < |value| && value[i] != '_'
    requires i == 0 || value[i - 1] == '_'
    ensures 'A' <= Label(value)[i] <= 'Z'
  {
    var spaced := ReplaceAll(value, '_', ' ');
    assert spaced[i] == value[i];
    if i > 0 {
      assert spaced[i - 1] == ' ';
    }
  }

  /** The seven categories have seven different labels. */
  lemma LabelsIdentifyCategories(a: NewsCategories.NewsCategory, b: NewsCategories.NewsCategory)
    requires Label(NewsCategories.Key(a)) == Label(NewsCategories.Key(b))
    ensures a == b
  {
    KeysAreSnakeCase(a);
    KeysAreSnakeCase(b);
    LabelRoundTrip(NewsCategories.Key(a));
    LabelRoundTrip(NewsCategories.Key(b));
    NewsCategories.KeysIdentifyCategories(a, b);
  }

  lemma KeysAreSnakeCase(c: NewsCategories.NewsCategory)
    ensures SnakeCase(NewsCategories.Key(c))
  {
  }

  /** "track_road_trail" is labelled "Track Road Trail". */
  lemma TrackRoadTrailLabel()
    ensures Label("track_road_trail") == "Track Road Trail"
  {
    TrackRoadTrailSpaced();
    TrackRoadTrailCapitalized();
  }

  lemma TrackRoadTrailSpaced()
    ensures ReplaceAll("track_road_trail", '_', ' ') == "track road trail"
  {
    var v := "track_road_trail";
    var r := ReplaceAll(v, '_', ' ');
    forall i | 0 <= i < 16
      ensures r[i] == "track road trail"[i]
    {
    }
  }

  lemma TrackRoadTrailCapitalized()
    ensures CapitalizeWords("track road trail") == "Track Road Trail"
  {
    var v := "track road trail";
    var w := "Track Road Trail";
    var r := CapitalizeWords(v);
    forall i | 0 <= i < 5 ensures r[i] == w[i] { }
    forall i | 5 <= i < 11 ensures r[i] == w[i] { }
    forall i | 11 <= i < 16 ensures r[i] == w[i] { }
  }

  // ---------------------------------------------------------------------------
  // Starting values, validation and saving

  /** The signed-in account. */
  datatype AuthUser = AuthUser(uid: string, displayName: Option<string>, email: Option<string>)

  /** The user document as read, before any schema has looked at it. */
  datatype StoredUser = StoredUser(firstName: Option<string>, lastName: Option<string>,
                                   email: Option<string>, profile: Value)

  datatype FormValues = FormValues(firstName: string, lastName: string, email: string,
                                   profile: UserProfile)

  /** The values the form is reset to: from the stored document when there is one; otherwise,
      once the document has finished loading without error for a signed-in user, from the
      account; otherwise the form is left as it is. */
  function ResetValues(stored: Option<StoredUser>, auth: Option<AuthUser>, docLoading: bool,
                       docError: bool): (r: Option<FormValues>)
    ensures r.Some? <==> stored.Some? || (auth.Some? && !docLoading && !docError)
    ensures r.Some? ==> ProfileOk(r.value.profile)
    ensures stored.Some? ==> r.value.profile == OverlayProfile(stored.value.profile)
    ensures stored.Some? ==> var u := stored.value;
      && r.value.firstName == (if u.firstName.Some? then u.firstName.value else "")
      && r.value.lastName == (if u.lastName.Some? then u.lastName.value else "")
      && r.value.email == (if u.email.Some? then u.email.value else "")
    ensures stored.None? && r.Some? ==> r.value.profile == UserDefaultProfile
                                        && r.value.email == auth.value.email.GetOr("")
                                        && Names(r.value.firstName, r.value.lastName)
                                           == NamesFromDisplayName(auth.value.displayName)
  {
    UserDefaultMatchesProfileDefaults();
    if stored.Some? then
      var u := stored.value;
      Some(FormValues(u.firstName.GetOr(""), u.lastName.GetOr(""), u.email.GetOr(""),
                      OverlayProfile(u.profile)))
    else if auth.Some? && !docLoading && !docError then
      var names := NamesFromDisplayName(auth.value.displayName);
      Some(FormValues(names.first, names.last, auth.value.email.GetOr(""), UserDefaultProfile))
    else None
  }

  datatype FormError = FirstNameMissing | LastNameMissing | EmailInvalid | ProfileInvalid

  /** `ProfileFormSchema`: both names non-empty, the email valid or empty, the profile within
      its schema; `isEmail` stands for `z.string().email()`. Every failing field is reported. */
  function Errors(v: FormValues, isEmail: string -> bool): (r: set<FormError>)
    ensures FirstNameMissing in r <==> v.firstName == ""
    ensures LastNameMissing in r <==> v.lastName == ""
    ensures EmailInvalid in r <==> !(v.email == "" || isEmail(v.email))
    ensures ProfileInvalid in r <==> !ProfileOk(v.profile)
  {
    (if v.firstName == "" then {FirstNameMissing} else {})
    + (if v.lastName == "" then {LastNameMissing} else {})
    + (if v.email == "" || isEmail(v.email) then {} else {EmailInvalid})
    + (if ProfileOk(v.profile) then {} else {ProfileInvalid})
  }

  /** A new account whose display name is a single word starts with an empty last name, so the
      form refuses to save until one is typed. */
  lemma OneWordNameNeedsLastName(auth: AuthUser, isEmail: string -> bool)
    requires auth.displayName.Some? && ' ' !in auth.displayName.value
    ensures var r := ResetValues(None, Some(auth), false, false);
      r.Some? && LastNameMissing in Errors(r.value, isEmail)
  {
  }

  datatype SaveOutcome =
    | Invalid(errors: set<FormError>)
    | NotAuthenticated
    | Written(fields: map<string, Value>)

  /** `onSubmit` behind the form's validation: the names, the profile, and the account's email
      when the account has one, merged into the user document. The email typed into the form
      is never written. */
  function Save(v: FormValues, auth: Option<AuthUser>, hasDocRef: bool, isEmail: string -> bool): (r: SaveOutcome)
    ensures r.Invalid? <==> Errors(v, isEmail) != {}
    ensures r.Invalid? ==> r.errors == Errors(v, isEmail)
    ensures r.NotAuthenticated? <==> Errors(v, isEmail) == {} && (!hasDocRef || auth.None?)
    ensures r.Written? ==> ("email" in r.fields <==> auth.value.email.Some? && auth.value.email.value != "")
    ensures r.Written? && "email" in r.fields ==> r.fields["email"] == Str(auth.value.email.value)
    ensures r.Written? ==> r.fields.Keys <= {"firstName", "lastName", "profile", "email"}
  {
    var errors := Errors(v, isEmail);
    if errors != {} then Invalid(errors)
    else if !hasDocRef || auth.None? then NotAuthenticated
    else
      var base := map["firstName" := Str(v.firstName), "lastName" := Str(v.lastName),
                      "profile" := Obj(ProfileFields(v.profile))];
      var email := auth.value.email;
      Written(if email.Some? && email.value != "" then base["email" := Str(email.value)] else base)
  }

  /** A written profile reads back as the profile the form held. */
  lemma SavedProfileReadsBack(v: FormValues, auth: Option<AuthUser>, hasDocRef: bool, isEmail: string -> bool)
    requires Save(v, auth, hasDocRef, isEmail).Written?
    ensures var f := Save(v, auth, hasDocRef, isEmail).fields;
      "profile" in f && ParseProfile(f["profile"]) == Some(v.profile)
      && f["firstName"] == Str(v.firstName) && f["lastName"] == Str(v.lastName)
  {
    assert ProfileInvalid !in Errors(v, isEmail);
    ProfileRoundTrip(v.profile);
    var base := map["firstName" := Str(v.firstName), "lastName" := Str(v.lastName),
                    "profile" := Obj(ProfileFields(v.profile))];
    var f := Save(v, auth, hasDocRef, isEmail).fields;
    assert f == base || f == base["email" := Str(auth.value.email.value)];
  }
}
