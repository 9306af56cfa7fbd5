/**
 * The state the user-profile page keeps beside its form: the
 * `isAvatarImageInProcess` flag, the notifications it opens, the calls it
 * makes on the profile service, and the in-place trimming of the form's
 * values before they are saved.
 *
 * The profile service's promises are not run: each call site takes the way
 * its promise ends as a `Settlement`.
 */
module UserProfile {
  import opened Wrappers
  import opened JsStrings

  /** An image file chosen by the user. */
  datatype File = File(name: string, bytes: seq<bv8>)

  /** What the avatar-actions bottom sheet answers when it is dismissed with a choice. */
  datatype ProfileAvatarActionsResponse = ProfileAvatarActionsResponse(kind: string, image: Option<File>)

  /** The branch of the avatar-actions switch a response selects. */
  datatype AvatarAction = NoAction | UploadAvatar(image: Option<File>) | RemoveAvatar | WarnNotImage

  /** How a promise ends: not yet, with a value, or with an error. */
  datatype Settlement = Pending | Fulfilled | Rejected

  /** A call made on the profile service. */
  datatype ProfileServiceCall =
    | UploadAvatarImage(image: Option<File>)
    | SetDefaultUserAvatarImage
    | UpdateProfileData(data: map<string, string>)

  const AVATAR_UPDATED := "✔️ Avatar Güncellendi."
  const AVATAR_REMOVED := "✔️ Avatar Silindi."
  const AVATAR_REMOVE_FAILED := "❌ Varsayılan Avatar Resmi Kaldırılamıyor!"
  const AVATAR_NOT_IMAGE := "⚠️ Avatar Yalnızca Resim Türünde Olabilir!"
  const PROFILE_UPDATED := "✔️ Profile Bilgileri Güncellendi."

  /**
   * The switch on a response: nothing for an undefined response, the upload
   * path with the response's image for `'upload'`, the remove path for
   * `'remove'`, a warning for `'not-image'` and nothing for any other kind.
   */
  function AvatarActionFor(resp: Option<ProfileAvatarActionsResponse>): (a: AvatarAction)
    ensures resp.None? ==> a == NoAction
    ensures a.UploadAvatar? <==> resp.Some? && resp.value.kind == "upload"
    ensures a.UploadAvatar? ==> a.image == resp.value.image
    ensures a.RemoveAvatar? <==> resp.Some? && resp.value.kind == "remove"
    ensures a.WarnNotImage? <==> resp.Some? && resp.value.kind == "not-image"
  {
    match resp
    case None => NoAction
    case Some(r) =>
      if r.kind == "upload" then UploadAvatar(r.image)
      else if r.kind == "remove" then RemoveAvatar
      else if r.kind == "not-image" then WarnNotImage
      else NoAction
  }

  /** A response that is not one of the three known kinds is ignored like an undefined one. */
  lemma UnknownResponseIgnored(resp: ProfileAvatarActionsResponse)
    requires resp.kind != "upload" && resp.kind != "remove" && resp.kind != "not-image"
    ensures AvatarActionFor(Some(resp)) == AvatarActionFor(None)
  {
  }

  /** The map with `f` applied to every value. */
  function MapValues(fields: map<string, string>, f: string -> string): map<string, string> {
    map key | key in fields :: f(fields[key])
  }

  /** A map none of whose values `f` changes is its own image. */
  lemma MapValuesFixed(fields: map<string, string>, f: string -> string)
    requires forall key | key in fields :: f(fields[key]) == fields[key]
    ensures MapValues(fields, f) == fields
  {
    assert MapValues(fields, f).Keys == fields.Keys;
  }

  /**
   * Every value of a form value object, trimmed: the keys stay and no value
   * grows longer.
   */
  function TrimmedFields(fields: map<string, string>): (r: map<string, string>)
    ensures r.Keys == fields.Keys
    ensures forall key | key in fields :: |r[key]| <= |fields[key]|
  {
    MapValues(fields, Trim)
  }

  /** Trimming the values keeps the keys and leaves each value trimmed. */
  lemma TrimmedFieldsAreTrimmed(fields: map<string, string>)
    ensures TrimmedFields(fields).Keys == fields.Keys
    ensures forall key | key in fields :: IsTrimmed(TrimmedFields(fields)[key])
  {
  }

  /** A value already without outer white space is left as it is. */
  lemma {:induction false} TrimmedFieldsKeepsClean(fields: map<string, string>)
    requires forall key | key in fields :: IsTrimmed(fields[key])
    ensures TrimmedFields(fields) == fields
  {
    forall key | key in fields
      ensures Trim(fields[key]) == fields[key]
    {
      TrimKeepsTrimmed(fields[key]);
    }
    MapValuesFixed(fields, Trim);
  }

  /** Clearing the values twice is clearing them once. */
  lemma {:induction false} TrimmedFieldsIdempotent(fields: map<string, string>)
    ensures TrimmedFields(TrimmedFields(fields)) == TrimmedFields(fields)
  {
    TrimmedFieldsAreTrimmed(fields);
    TrimmedFieldsKeepsClean(TrimmedFields(fields));
  }

  /** The object a form hands out as its value: field names to strings. */
  class FormValue {
    var fields: map<string, string>

    constructor (fields: map<string, string>)
      ensures this.fields == fields
    {
      this.fields := fields;
    }
  }

  class UserProfileComponent {
    var isAvatarImageInProcess: bool
    /** The snack-bar messages opened so far, oldest first. */
    var snackBarMessages: seq<string>
    /** The profile-service calls made so far, oldest first. */
    var profileServiceCalls: seq<ProfileServiceCall>

    constructor ()
      ensures !isAvatarImageInProcess && snackBarMessages == [] && profileServiceCalls == []
    {
      isAvatarImageInProcess := false;
      snackBarMessages := [];
      profileServiceCalls := [];
    }

    /**
     * Raises the flag and asks the service to upload the image. Only a
     * fulfilled upload lowers the flag again and reports success; a pending
     * or a failed one leaves the flag raised.
     */
    method OnAvatarImageUpload(image: Option<File>, upload: Settlement)
      modifies this`isAvatarImageInProcess, this`snackBarMessages, this`profileServiceCalls
      ensures profileServiceCalls == old(profileServiceCalls) + [UploadAvatarImage(image)]
      ensures isAvatarImageInProcess <==> upload != Fulfilled
      ensures snackBarMessages == old(snackBarMessages) + (if upload == Fulfilled then [AVATAR_UPDATED] else [])
    {
      isAvatarImageInProcess := true;
      profileServiceCalls := profileServiceCalls + [UploadAvatarImage(image)];
      if upload == Fulfilled {
        isAvatarImageInProcess := false;
        snackBarMessages := snackBarMessages + [AVATAR_UPDATED];
      }
    }

    /**
     * Raises the flag and asks the service to restore the default avatar.
     * Once that settles, either way, the flag is lowered; the message says
     * whether it worked.
     */
    method OnAvatarImageRemove(removal: Settlement)
      modifies this`isAvatarImageInProcess, this`snackBarMessages, this`profileServiceCalls
      ensures profileServiceCalls == old(profileServiceCalls) + [SetDefaultUserAvatarImage]
      ensures isAvatarImageInProcess <==> removal == Pending
      ensures snackBarMessages == old(snackBarMessages) + match removal {
        case Pending => []
        case Fulfilled => [AVATAR_REMOVED]
        case Rejected => [AVATAR_REMOVE_FAILED]
      }
    {
      isAvatarImageInProcess := true;
      profileServiceCalls := profileServiceCalls + [SetDefaultUserAvatarImage];
      match removal {
        case Pending =>
        case Fulfilled =>
          snackBarMessages := snackBarMessages + [AVATAR_REMOVED];
        case Rejected =>
          snackBarMessages := snackBarMessages + [AVATAR_REMOVE_FAILED];
      }
      if removal != Pending {
        isAvatarImageInProcess := false;
      }
    }

    /**
     * Runs the branch `AvatarActionFor` selects; `settlement` is how the
     * profile-service call of that branch ends. An undefined or unknown
     * response changes nothing, and a non-image only adds the warning.
     */
    method HandleProfileAvatarActionsResponse(resp: Option<ProfileAvatarActionsResponse>, settlement: Settlement)
      modifies this`isAvatarImageInProcess, this`snackBarMessages, this`profileServiceCalls
      ensures match AvatarActionFor(resp) {
        case NoAction =>
          && isAvatarImageInProcess == old(isAvatarImageInProcess)
          && snackBarMessages == old(snackBarMessages)
          && profileServiceCalls == old(profileServiceCalls)
        case UploadAvatar(image) =>
          && profileServiceCalls == old(profileServiceCalls) + [UploadAvatarImage(image)]
          && (isAvatarImageInProcess <==> settlement != Fulfilled)
          && snackBarMessages == old(snackBarMessages) + (if settlement == Fulfilled then [AVATAR_UPDATED] else [])
        case RemoveAvatar =>
          && profileServiceCalls == old(profileServiceCalls) + [SetDefaultUserAvatarImage]
          && (isAvatarImageInProcess <==> settlement == Pending)
          && snackBarMessages == old(snackBarMessages) + match settlement {
            case Pending => []
            case Fulfilled => [AVATAR_REMOVED]
            case Rejected => [AVATAR_REMOVE_FAILED]
          }
        case WarnNotImage =>
          && isAvatarImageInProcess == old(isAvatarImageInProcess)
          && snackBarMessages == old(snackBarMessages) + [AVATAR_NOT_IMAGE]
          && profileServiceCalls == old(profileServiceCalls)
      }
    {
      if resp.None? {
        return;
      }
      var r := resp.value;
      if r.kind == "upload" {
        OnAvatarImageUpload(r.image, settlement);
      } else if r.kind == "remove" {
        OnAvatarImageRemove(settlement);
      } else if r.kind == "not-image" {
        snackBarMessages := snackBarMessages + [AVATAR_NOT_IMAGE];
      }
    }

    /**
     * Overwrites every value of `data` with its trim, in place, and returns
     * the same object: the keys stay, each value becomes the trim of what it
     * was.
     */
    method ClearFormDataValues(data: FormValue) returns (r: FormValue)
      modifies data
      ensures r == data
      ensures data.fields == TrimmedFields(old(data.fields))
    {
      ghost var original := data.fields;
      var keys := data.fields.Keys;
      while keys != {}
        invariant keys <= original.Keys
        invariant data.fields.Keys == original.Keys
        invariant forall key | key in original && key !in keys :: data.fields[key] == Trim(original[key])
        invariant forall key | key in keys :: data.fields[key] == original[key]
        decreases keys
      {
        var key :| key in keys;
        data.fields := data.fields[key := Trim(data.fields[key])];
        keys := keys - {key};
      }
      r := data;
    }

    /** Saves the form's value once its values are trimmed, and reports a fulfilled save. */
    method OnSaveForm(value: FormValue, update: Settlement)
      modifies value, this`snackBarMessages, this`profileServiceCalls
      ensures value.fields == TrimmedFields(old(value.fields))
      ensures profileServiceCalls == old(profileServiceCalls) + [UpdateProfileData(value.fields)]
      ensures snackBarMessages == old(snackBarMessages) + (if update == Fulfilled then [PROFILE_UPDATED] else [])
    {
      var cleanProfileData := ClearFormDataValues(value);
      profileServiceCalls := profileServiceCalls + [UpdateProfileData(cleanProfileData.fields)];
      if update == Fulfilled {
        snackBarMessages := snackBarMessages + [PROFILE_UPDATED];
      }
    }
  }
}
