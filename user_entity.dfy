/** The User aggregate: identity, profile fields and audio preferences, with defaults and partial update. */
module UserEntity {
  import opened Wrappers

  /** Stored audio preferences; `entryAudio` is `string | null`. */
  datatype AudioPreferences = AudioPreferences(
    entryAudio: Option<string>,
    volume: int,
    playOnEntry: bool,
    favorites: seq<string>)

  /** Preferences as handed to the constructor: each field may be missing (null or undefined). */
  datatype PreferencesInput = PreferencesInput(
    entryAudio: Option<string>,
    volume: Option<int>,
    playOnEntry: Option<bool>,
    favorites: Option<seq<string>>)

  datatype CreateUserProps = CreateUserProps(
    provider: string,
    id: string,
    username: string,
    avatar: Nullish<string>,
    displayName: string,
    audioPreferences: Option<PreferencesInput>)

  /** Every field optional; `id` is accepted and ignored by `update`, `provider` is not accepted at all. */
  datatype UpdateUserProps = UpdateUserProps(
    id: Option<string>,
    username: Option<string>,
    displayName: Option<string>,
    avatar: Nullish<string>,
    audioPreferences: Option<AudioPreferences>)

  /** A patch that carries no field `update` looks at (its `id` is ignored). */
  predicate IsEmptyPatch(patch: UpdateUserProps) {
    patch.username.None? && patch.displayName.None? && patch.avatar.Undefined?
    && patch.audioPreferences.None?
  }

  /** The value view of a User object: what its getters return. */
  datatype UserState = UserState(
    id: string,
    provider: string,
    username: string,
    displayName: string,
    avatar: Option<string>,
    audioPreferences: AudioPreferences)

  const DefaultVolume := 100
  const DefaultPreferences := AudioPreferences(None, DefaultVolume, false, [])

  /** The preferences a new User starts with: each supplied field, else its default. */
  function InitialPreferences(input: Option<PreferencesInput>): (p: AudioPreferences)
    ensures input.None? ==> p == DefaultPreferences
    ensures input.Some? && input.value.entryAudio.Some? ==> p.entryAudio == input.value.entryAudio
    ensures input.Some? && input.value.volume.Some? ==> p.volume == input.value.volume.value
    ensures input.Some? && input.value.playOnEntry.Some? ==> p.playOnEntry == input.value.playOnEntry.value
    ensures input.Some? && input.value.favorites.Some? ==> p.favorites == input.value.favorites.value
    ensures (input.None? || input.value.entryAudio.None?) ==> p.entryAudio.None?
    ensures (input.None? || input.value.volume.None?) ==> p.volume == DefaultVolume
    ensures (input.None? || input.value.playOnEntry.None?) ==> !p.playOnEntry
    ensures (input.None? || input.value.favorites.None?) ==> p.favorites == []
  {
    match input
    case None => DefaultPreferences
    case Some(i) =>
      AudioPreferences(
        i.entryAudio,
        i.volume.GetOr(DefaultVolume),
        i.playOnEntry.GetOr(false),
        i.favorites.GetOr([]))
  }

  /** The state a freshly constructed User has. */
  function Constructed(props: CreateUserProps): (s: UserState)
    ensures s.id == props.id && s.provider == props.provider
    ensures s.username == props.username && s.displayName == props.displayName
    ensures props.avatar.Defined? <==> s.avatar.Some?
    ensures props.avatar.Defined? ==> s.avatar.value == props.avatar.value
    ensures s.audioPreferences == InitialPreferences(props.audioPreferences)
  {
    UserState(props.id, props.provider, props.username, props.displayName,
              props.avatar.OrNull(), InitialPreferences(props.audioPreferences))
  }

  /** The state after `update(patch)`: present fields overwrite, absent ones are kept. */
  function Updated(s: UserState, patch: UpdateUserProps): (t: UserState)
    ensures t.id == s.id && t.provider == s.provider
    ensures t.username == patch.username.GetOr(s.username)
    ensures t.displayName == patch.displayName.GetOr(s.displayName)
    ensures t.audioPreferences == patch.audioPreferences.GetOr(s.audioPreferences)
    ensures patch.avatar.Undefined? ==> t.avatar == s.avatar
    ensures patch.avatar.Null? ==> t.avatar.None?
    ensures patch.avatar.Defined? ==> t.avatar == Some(patch.avatar.value)
    ensures IsEmptyPatch(patch) ==> t == s
  {
    var avatar := if patch.avatar.Undefined? then s.avatar else patch.avatar.OrNull();
    UserState(s.id, s.provider,
              patch.username.GetOr(s.username),
              patch.displayName.GetOr(s.displayName),
              avatar,
              patch.audioPreferences.GetOr(s.audioPreferences))
  }

  class User {
    const id: string
    const provider: string
    var username: string
    var displayName: string
    var avatar: Option<string>
    var audioPreferences: AudioPreferences

    function State(): UserState
      reads this
    {
      UserState(id, provider, username, displayName, avatar, audioPreferences)
    }

    /** The private constructor: copies the identity and profile, defaults what is missing. */
    constructor (props: CreateUserProps)
      ensures State() == Constructed(props)
    {
      id := props.id;
      username := props.username;
      displayName := props.displayName;
      avatar := props.avatar.OrNull();
      provider := props.provider;
      var defaultEntryAudio: Option<string> := None;
      var defaultVolume := DefaultVolume;
      var defaultPlayOnEntry := false;
      var defaultFavorites: seq<string> := [];
      var input := props.audioPreferences;
      audioPreferences := AudioPreferences(
        if input.Some? && input.value.entryAudio.Some? then input.value.entryAudio else defaultEntryAudio,
        if input.Some? && input.value.volume.Some? then input.value.volume.value else defaultVolume,
        if input.Some? && input.value.playOnEntry.Some? then input.value.playOnEntry.value else defaultPlayOnEntry,
        if input.Some? && input.value.favorites.Some? then input.value.favorites.value else defaultFavorites);
    }

    /** A new user being registered. */
    static method Create(props: CreateUserProps) returns (user: User)
      ensures fresh(user)
      ensures user.State() == Constructed(props)
    {
      user := new User(props);
    }

    /** A user rebuilt from stored data. */
    static method FromData(props: CreateUserProps) returns (user: User)
      ensures fresh(user)
      ensures user.State() == Constructed(props)
    {
      user := new User(props);
    }

    method Update(props: UpdateUserProps)
      modifies this
      ensures State() == Updated(old(State()), props)
    {
      username := props.username.GetOr(username);
      displayName := props.displayName.GetOr(displayName);
      audioPreferences := props.audioPreferences.GetOr(audioPreferences);
      if !props.avatar.Undefined? {
        avatar := props.avatar.OrNull();
      }
    }
  }
}
