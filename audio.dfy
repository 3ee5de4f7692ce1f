/** Which sound the app plays (src/utils/audioPlayer.js). A custom URL
    saved in the browser's local storage under `custom<Type>Sound` takes
    priority; otherwise "Success" and "Error" have bundled defaults and
    every other type has no sound. Local storage is a map from keys to
    strings; playing the audio itself is outside the model, which keeps
    only the URLs a playback would try. */
module AudioPlayer {
  import opened Wrappers

  const DefaultSuccess := "/sounds/success.mp3"
  const DefaultError := "/sounds/error.mp3"

  /** The local-storage key of a sound type's custom URL. */
  function StorageKey(soundType: string): string {
    "custom" + soundType + "Sound"
  }

  /** Different sound types never share a storage key. */
  lemma {:induction false} StorageKeyInjective(a: string, b: string)
    requires StorageKey(a) == StorageKey(b)
    ensures a == b
  {
    var ka, kb := StorageKey(a), StorageKey(b);
    assert |a| == |b|;
    assert a == ka[6..6 + |a|];
    assert b == kb[6..6 + |b|];
  }

  /** `localStorage.getItem(key)` is truthy: present and non-empty. */
  predicate HasCustom(store: map<string, string>, soundType: string) {
    StorageKey(soundType) in store && store[StorageKey(soundType)] != ""
  }

  /** `getSoundUrl(type)`. */
  function GetSoundUrl(store: map<string, string>, soundType: string): string {
    if HasCustom(store, soundType) then store[StorageKey(soundType)]
    else if soundType == "Success" then DefaultSuccess
    else if soundType == "Error" then DefaultError
    else ""
  }

  /** The bundled sound of a type: "" for a type that has none. */
  function DefaultSound(soundType: string): (r: string)
    ensures r != "" <==> soundType == "Success" || soundType == "Error"
  {
    if soundType == "Success" then DefaultSuccess
    else if soundType == "Error" then DefaultError
    else ""
  }

  /** A custom URL wins whatever the type; without one the bundled
      default is used, and the URL is empty exactly for a type with
      neither. */
  lemma {:induction false} GetSoundUrlPriority(store: map<string, string>, soundType: string)
    ensures HasCustom(store, soundType) ==> GetSoundUrl(store, soundType) == store[StorageKey(soundType)]
    ensures !HasCustom(store, soundType) ==> GetSoundUrl(store, soundType) == DefaultSound(soundType)
    ensures GetSoundUrl(store, soundType) == "" <==>
      !HasCustom(store, soundType) && soundType != "Success" && soundType != "Error"
  {
  }

  /** Saving a non-empty URL for a type makes it that type's sound, and
      changes no other type's sound. */
  lemma {:induction false} SavedUrlIsPlayed(store: map<string, string>, soundType: string, url: string, other: string)
    requires url != ""
    ensures GetSoundUrl(store[StorageKey(soundType) := url], soundType) == url
    ensures other != soundType ==>
      GetSoundUrl(store[StorageKey(soundType) := url], other) == GetSoundUrl(store, other)
  {
    if other != soundType && StorageKey(other) == StorageKey(soundType) {
      StorageKeyInjective(other, soundType);
    }
  }

  /** Removing a type's stored URL brings back its bundled default, and
      changes no other type's sound. */
  lemma {:induction false} RemovedUrlFallsBack(store: map<string, string>, soundType: string, other: string)
    ensures GetSoundUrl(store - {StorageKey(soundType)}, soundType) == DefaultSound(soundType)
    ensures other != soundType ==>
      GetSoundUrl(store - {StorageKey(soundType)}, other) == GetSoundUrl(store, other)
  {
    if other != soundType && StorageKey(other) == StorageKey(soundType) {
      StorageKeyInjective(other, soundType);
    }
  }

  /** The URL `playSound(type)` tries first; `None` when it returns
      without playing. */
  function PlaybackUrl(store: map<string, string>, soundType: string): (r: Option<string>)
    ensures r.Some? ==> r.value != "" && r.value == GetSoundUrl(store, soundType)
  {
    var url := GetSoundUrl(store, soundType);
    if url == "" then None else Some(url)
  }

  /** The sound tried after the first playback fails. */
  function FallbackUrl(soundType: string): string {
    if soundType == "Success" then DefaultSuccess else DefaultError
  }

  /** The two sounds the app plays always play something; a type with
      neither custom URL nor default plays nothing. After a failure the
      fallback is the type's own default, and the error sound for every
      type without a default. */
  lemma {:induction false} PlaybackCases(store: map<string, string>, soundType: string)
    ensures PlaybackUrl(store, soundType).None? <==>
      !HasCustom(store, soundType) && soundType != "Success" && soundType != "Error"
    ensures soundType == "Success" || soundType == "Error" ==> PlaybackUrl(store, soundType).Some?
    ensures DefaultSound(soundType) != "" ==> FallbackUrl(soundType) == DefaultSound(soundType)
    ensures DefaultSound(soundType) == "" ==> FallbackUrl(soundType) == DefaultError
  {
    GetSoundUrlPriority(store, soundType);
  }
}
