/** The profile type enumeration (`agents.core.profile_type.ProfileType`). */
module ProfileTypes {

  datatype ProfileType = ContentCreator | Humanizer
}

/** The profile factory of the `agents.core` package: a closed dispatch from
    profile type to profile object. */
module CoreProfile {

  import opened ProfileTypes

  /** Which profile class the factory instantiates. The humanizer's class
      lives in a module that is not part of this model, so only its identity
      is kept. */
  datatype Profile = ContentCreatorProfile | HumanizerProfile

  /** `ContentCreatorProfile.get_profile_type()` in `agents.content_creator.profile`. */
  function ContentCreatorProfileType(): (t: ProfileType)
    ensures t == ContentCreator
  {
    ContentCreator
  }

  /** `create_profile(profile_type)`. The source ends in `raise ValueError`
      for any other value; with a two-member enum that branch cannot be
      reached, so the dispatch is an exhaustive match and never fails. */
  function CreateProfile(profileType: ProfileType): (p: Profile)
    ensures p == ContentCreatorProfile <==> profileType == ContentCreator
    ensures p == HumanizerProfile <==> profileType == Humanizer
  {
    match profileType
    case ContentCreator => ContentCreatorProfile
    case Humanizer => HumanizerProfile
  }

  /** The content-creator profile the factory builds reports its own type,
      and the factory gives distinct profiles for distinct types. */
  lemma CreateProfileRoundTrip(t1: ProfileType, t2: ProfileType)
    ensures CreateProfile(ContentCreator) == ContentCreatorProfile
            && ContentCreatorProfileType() == ContentCreator
    ensures CreateProfile(t1) == CreateProfile(t2) ==> t1 == t2
  {
  }
}

/** The older, flat profile module (`agents.profile`), which knows only the
    content-creator profile. */
module FlatProfile {

  import opened Wrappers
  import opened ProfileTypes

  datatype Profile = ContentCreatorProfile

  /** `ValueError(f"Profile não implementado: {profile_type}")`, naming the
      type asked for. */
  datatype ProfileError = ProfileNotImplemented(requested: ProfileType)

  /** Stands for the fixed instruction text; its wording is not modelled. */
  const ContentCreatorInstructions: string := "<content creator instructions>"

  /** `ContentCreatorProfile.get_profile_type()`. */
  function GetProfileType(p: Profile): (t: ProfileType)
    ensures t == ContentCreator
  {
    ContentCreator
  }

  /** `ContentCreatorProfile.get_instructions()`: one fixed text. */
  function GetInstructions(p: Profile): (s: string)
    ensures s == ContentCreatorInstructions && s != []
  {
    ContentCreatorInstructions
  }

  /** `create_profile(profile_type)`: the content-creator profile, or the
      error naming any other type. What it builds reports the type asked for. */
  function CreateProfile(profileType: ProfileType): (r: Result<Profile, ProfileError>)
    ensures r.Ok? <==> profileType == ContentCreator
    ensures r.Ok? ==> GetProfileType(r.value) == profileType
    ensures r.Err? ==> r.error == ProfileNotImplemented(profileType)
  {
    if profileType == ContentCreator then Ok(ContentCreatorProfile)
    else Err(ProfileNotImplemented(profileType))
  }
}
