/** The user dashboard's profile card: a committed profile, a draft copy the
    inputs edit, the `isEditing` switch between them, and the avatar initials. */
module Profile {
  import opened Seqs
  import opened Text

  /** The profile record: six editable text fields and the avatar URL. */
  datatype ProfileData = ProfileData(
    username: string,
    email: string,
    fullName: string,
    phone: string,
    address: string,
    bio: string,
    avatar: string)

  /** The fields the card has an input for (the avatar has none). */
  datatype Field = Username | FullName | Email | Phone | Address | Bio

  /** The value a field's input is bound to. */
  function FieldOf(p: ProfileData, f: Field): string
  {
    match f
    case Username => p.username
    case FullName => p.fullName
    case Email => p.email
    case Phone => p.phone
    case Address => p.address
    case Bio => p.bio
  }

  /** An input's `onChange`: `{ ...editedProfile, [field]: value }`. Exactly
      that field takes the new value; every other field and the avatar are kept. */
  function WithField(p: ProfileData, f: Field, value: string): (r: ProfileData)
    ensures FieldOf(r, f) == value
    ensures forall g: Field :: g != f ==> FieldOf(r, g) == FieldOf(p, g)
    ensures r.avatar == p.avatar
  {
    match f
    case Username => p.(username := value)
    case FullName => p.(fullName := value)
    case Email => p.(email := value)
    case Phone => p.(phone := value)
    case Address => p.(address := value)
    case Bio => p.(bio := value)
  }

  /** Two profiles that agree on every field and on the avatar are equal. */
  lemma FieldsDetermineProfile(p: ProfileData, q: ProfileData)
    requires forall f: Field :: FieldOf(p, f) == FieldOf(q, f)
    requires p.avatar == q.avatar
    ensures p == q
  {
    assert FieldOf(p, Username) == FieldOf(q, Username);
    assert FieldOf(p, FullName) == FieldOf(q, FullName);
    assert FieldOf(p, Email) == FieldOf(q, Email);
    assert FieldOf(p, Phone) == FieldOf(q, Phone);
    assert FieldOf(p, Address) == FieldOf(q, Address);
    assert FieldOf(p, Bio) == FieldOf(q, Bio);
  }

  /** Typing a field's current value back into it changes nothing. */
  lemma {:induction false} RewriteSameValue(p: ProfileData, f: Field)
    ensures WithField(p, f, FieldOf(p, f)) == p
  {
    FieldsDetermineProfile(WithField(p, f, FieldOf(p, f)), p);
  }

  /** The later of two edits to the same field wins; edits to different fields commute. */
  lemma {:induction false} EditsCompose(p: ProfileData, f: Field, g: Field, a: string, b: string)
    ensures WithField(WithField(p, f, a), f, b) == WithField(p, f, b)
    ensures f != g ==> WithField(WithField(p, f, a), g, b) == WithField(WithField(p, g, b), f, a)
  {
    FieldsDetermineProfile(WithField(WithField(p, f, a), f, b), WithField(p, f, b));
    if f != g {
      FieldsDetermineProfile(WithField(WithField(p, f, a), g, b), WithField(WithField(p, g, b), f, a));
    }
  }

  /** A piece of the name that has a first character. */
  function IsWord(piece: string): bool
  {
    piece != ""
  }

  /** The first character of a non-empty piece. */
  function Head(piece: string): char
  {
    if piece == "" then ' ' else piece[0]
  }

  /** `pieces.map(n => n[0]).join("")`: `n[0]` of an empty piece is
      `undefined`, which `join` writes as nothing. */
  function FirstLetters(pieces: seq<string>): string
    decreases |pieces|
  {
    if pieces == [] then ""
    else (if pieces[0] == "" then "" else [pieces[0][0]]) + FirstLetters(pieces[1..])
  }

  /** `getInitials(name)`. */
  function Initials(name: string): string
  {
    ToUpper(FirstLetters(Split(name)))
  }

  /** The letters collected are the first characters of the non-empty pieces, in order. */
  lemma {:induction false} FirstLettersOfWords(pieces: seq<string>)
    ensures FirstLetters(pieces) == Map(Filter(pieces, IsWord), Head)
    decreases |pieces|
  {
    if pieces != [] {
      FirstLettersOfWords(pieces[1..]);
    }
  }

  /** The initials are the upper-cased first characters of the non-empty
      space-separated pieces of the name, so there are at most as many as pieces. */
  lemma {:induction false} InitialsAreFirstLetters(name: string)
    ensures Initials(name) == ToUpper(Map(Filter(Split(name), IsWord), Head))
    ensures |Initials(name)| == |Filter(Split(name), IsWord)| <= |Split(name)|
  {
    FirstLettersOfWords(Split(name));
  }

  /** A name written as non-empty words separated by single spaces has as
      initials the upper-cased first letter of each word. */
  lemma {:induction false} InitialsOfWords(words: seq<string>)
    requires |words| >= 1
    requires forall k :: 0 <= k < |words| ==> words[k] != "" && ' ' !in words[k]
    ensures Initials(Join(words)) == ToUpper(Map(words, Head))
  {
    JoinSplitRoundTrip(words);
    InitialsAreFirstLetters(Join(words));
    FilterKeepsAll(words, IsWord);
  }

  /** The seed user's initials. */
  lemma JohnDoeInitials()
    ensures Initials("John Doe") == "JD"
  {
    var words := ["John", "Doe"];
    assert Join(words) == "John Doe";
    InitialsOfWords(words);
    assert Map(words, Head) == "JD";
  }

  /** The profile the page starts with. */
  const SeedProfile: ProfileData := ProfileData(
    "johndoe",
    "john.doe@example.com",
    "John Doe",
    "+1 (555) 123-4567",
    "123 Green Street, San Francisco, CA 94102",
    "Passionate about sustainable living and eco-friendly products. "
      + "Love finding unique vintage items and giving them a new home.",
    "")

  /** The card's state: the committed profile, the draft, and whether the inputs are enabled. */
  class ProfilePage {
    var isEditing: bool
    var profile: ProfileData
    var editedProfile: ProfileData

    /** Outside edit mode the draft is the committed profile. */
    ghost predicate Valid()
      reads this
    {
      !isEditing ==> editedProfile == profile
    }

    /** The draft starts as a copy of the initial profile. */
    constructor ()
      ensures Valid()
      ensures !isEditing && profile == SeedProfile && editedProfile == SeedProfile
    {
      isEditing := false;
      profile := SeedProfile;
      editedProfile := SeedProfile;
    }

    /** "Edit Profile": `setIsEditing(true)`; both profiles are kept. */
    method StartEditing()
      modifies this
      ensures isEditing
      ensures profile == old(profile) && editedProfile == old(editedProfile)
    {
      isEditing := true;
    }

    /** An input's change handler; the inputs are disabled outside edit mode. */
    method EditField(f: Field, value: string)
      requires isEditing
      modifies this
      ensures Valid()
      ensures editedProfile == WithField(old(editedProfile), f, value)
      ensures isEditing && profile == old(profile)
    {
      editedProfile := WithField(editedProfile, f, value);
    }

    /** `handleSave`: commit the draft and leave edit mode. */
    method Save()
      modifies this
      ensures Valid()
      ensures profile == old(editedProfile) && editedProfile == old(editedProfile)
      ensures !isEditing
    {
      profile := editedProfile;
      isEditing := false;
    }

    /** `handleCancel`: discard the draft and leave edit mode. */
    method Cancel()
      modifies this
      ensures Valid()
      ensures profile == old(profile) && editedProfile == old(profile)
      ensures !isEditing
    {
      editedProfile := profile;
      isEditing := false;
    }

    /** The value an input shows: the draft while editing, the committed
        profile otherwise; by the invariant the two readings agree. */
    function DisplayedValue(f: Field): (v: string)
      requires Valid()
      reads this
      ensures v == FieldOf(editedProfile, f)
      ensures !isEditing ==> v == FieldOf(profile, f)
    {
      if isEditing then FieldOf(editedProfile, f) else FieldOf(profile, f)
    }

    /** The avatar fallback, computed from the committed full name. */
    function AvatarInitials(): (initials: string)
      reads this
      ensures |initials| <= |Split(profile.fullName)|
    {
      InitialsAreFirstLetters(profile.fullName);
      Initials(profile.fullName)
    }
  }
}
