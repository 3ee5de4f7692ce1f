/** The sound settings panel (src/components/SoundCustomizer.js) and the
    local storage it shares with the player. Each panel edits one sound
    type: `tempUrl` is the URL in the text box, `soundUrl` the one in use.
    An audio file can be uploaded to the `sounds` storage bucket, whose
    reply (the public URL, or nothing on failure) is a parameter; the
    delete confirmation is a boolean parameter. Saving stores the URL in
    local storage, as the page's `handleSoundSave`
    (src/pages/InventoryPage.js) does. */
module SoundSettings {
  import opened Wrappers
  import opened Text
  import opened AudioPlayer

  /** The browser's `localStorage`. */
  class LocalStorage {
    var items: map<string, string>

    constructor (items0: map<string, string>)
      ensures items == items0
    {
      items := items0;
    }

    method SetItem(key: string, value: string)
      modifies this
      ensures items == old(items)[key := value]
    {
      items := items[key := value];
    }

    method RemoveItem(key: string)
      modifies this
      ensures items == old(items) - {key}
    {
      items := items - {key};
    }
  }

  /** The largest sound file accepted: 5 MiB. */
  const MaxSoundBytes := 5 * 1024 * 1024

  const AllowedTypes := ["audio/mpeg", "audio/mp3", "audio/wav", "audio/ogg", "audio/webm"]

  /** The MIME types the panel accepts. */
  predicate IsAllowedType(mimeType: string) {
    mimeType in AllowedTypes
  }

  /** The chosen file: its name, size in bytes and MIME type. */
  datatype AudioFile = AudioFile(name: string, size: nat, mimeType: string)

  datatype Rejection = TooLarge | NotAudio

  /** The checks made before an upload: size first, then type. */
  function Validate(file: AudioFile): (r: Option<Rejection>)
    ensures r == Some(TooLarge) <==> file.size > MaxSoundBytes
    ensures r.None? <==> file.size <= MaxSoundBytes && IsAllowedType(file.mimeType)
  {
    if file.size > MaxSoundBytes then Some(TooLarge)
    else if !IsAllowedType(file.mimeType) then Some(NotAudio)
    else None
  }

  /** The size limit is inclusive: a 5 MiB sound file is accepted and
      one byte more is refused, whatever the type. */
  lemma {:induction false} SizeLimitBoundary(name: string, mimeType: string)
    ensures Validate(AudioFile(name, MaxSoundBytes, "audio/mpeg")).None?
    ensures Validate(AudioFile(name, MaxSoundBytes + 1, mimeType)) == Some(TooLarge)
  {
  }

  /** The storage path of an upload: lower-cased type, "-custom-", the
      millisecond time and the file name's extension, which is the text
      after its last '.', or the whole name when it has none. */
  function UploadPath(soundType: string, now: nat, fileName: string): string {
    ToLower(soundType) + "-custom-" + NatToString(now) + "." + LastSegment(fileName, '.')
  }

  /** The upload path starts with the lower-cased type. */
  lemma {:induction false} UploadPathPrefix(soundType: string, now: nat, fileName: string)
    ensures StartsWith(UploadPath(soundType, now, fileName), ToLower(soundType) + "-custom-")
  {
    var prefix := ToLower(soundType) + "-custom-";
    var digits := NatToString(now);
    StartsWithExtend(prefix, prefix, []);
    StartsWithExtend(prefix, prefix, digits);
    StartsWithExtend(prefix + digits, prefix, ".");
    StartsWithExtend(prefix + digits + ".", prefix, LastSegment(fileName, '.'));
  }

  /** The upload path keeps the file name's extension, which is the whole
      name when it has no '.'. */
  lemma {:induction false} UploadPathExtension(soundType: string, now: nat, fileName: string)
    ensures LastSegment(UploadPath(soundType, now, fileName), '.') == LastSegment(fileName, '.')
    ensures '.' !in fileName ==> LastSegment(UploadPath(soundType, now, fileName), '.') == fileName
  {
    var head := ToLower(soundType) + "-custom-" + NatToString(now);
    var ext := LastSegment(fileName, '.');
    assert UploadPath(soundType, now, fileName) == head + ['.'] + ext;
    LastSegmentFacts(fileName, '.');
    LastSegmentAfter(head, ext, '.');
    if '.' !in fileName {
      LastSegmentWhole(fileName, '.');
    }
  }

  lemma {:induction false} StartsWithExtend(s: string, prefix: string, t: string)
    requires s == prefix || StartsWith(s, prefix)
    ensures StartsWith(s + t, prefix)
  {
    assert (s + t)[..|prefix|] == s[..|prefix|];
  }

  /** An upload path has no '/' when the type and the file name have
      none. */
  lemma {:induction false} UploadPathNoSlash(soundType: string, now: nat, fileName: string)
    requires '/' !in soundType && '/' !in fileName
    ensures '/' !in UploadPath(soundType, now, fileName)
  {
    var lower := ToLower(soundType);
    ToLowerEach(soundType);
    assert '/' !in lower by {
      forall i | 0 <= i < |lower| ensures lower[i] != '/' {
        assert lower[i] == LowerChar(soundType[i]);
      }
    }
    var digits := NatToString(now);
    NatToStringDigits(now);
    assert '/' !in digits by {
      forall i | 0 <= i < |digits| ensures digits[i] != '/' {
        assert '0' <= digits[i] <= '9';
      }
    }
    var ext := LastSegment(fileName, '.');
    LastSegmentFacts(fileName, '.');
    assert '/' !in ext by {
      forall i | 0 <= i < |ext| ensures ext[i] != '/' {
        assert ext[i] == fileName[|fileName| - |ext| + i];
      }
    }
    var p := UploadPath(soundType, now, fileName);
    assert p == lower + "-custom-" + digits + "." + ext;
    forall i | 0 <= i < |p| ensures p[i] != '/' {
      if i < |lower| {
        assert p[i] == lower[i];
      } else if i < |lower| + 8 {
        assert p[i] == "-custom-"[i - |lower|];
      } else if i < |lower| + 8 + |digits| {
        assert p[i] == digits[i - |lower| - 8];
      } else if i == |lower| + 8 + |digits| {
        assert p[i] == '.';
      } else {
        assert p[i] == ext[i - |lower| - 9 - |digits|];
      }
    }
  }

  /** The file a delete removes from the bucket: the last '/' segment of a
      stored "https://" URL, when that segment is not empty. */
  function DeletedFileName(stored: Option<string>): (r: Option<string>)
    ensures r.Some? <==>
      stored.Some? && StartsWith(stored.value, "https://") && LastSegment(stored.value, '/') != ""
    ensures r.Some? ==> r.value == LastSegment(stored.value, '/')
    ensures r.Some? ==>
      && r.value != "" && '/' !in r.value
      && |r.value| < |stored.value|
      && stored.value[|stored.value| - |r.value|..] == r.value
      && stored.value[|stored.value| - |r.value| - 1] == '/'
  {
    if stored.Some? && StartsWith(stored.value, "https://") then
      var fileName := LastSegment(stored.value, '/');
      RemoteLastSegment(stored.value);
      if fileName != "" then Some(fileName) else None
    else None
  }

  /** The last '/' segment of an "https://" URL is a proper suffix that
      follows a '/'. */
  lemma {:induction false} RemoteLastSegment(url: string)
    requires StartsWith(url, "https://")
    ensures var f := LastSegment(url, '/');
      && '/' !in f && |f| < |url|
      && url[|url| - |f|..] == f && url[|url| - |f| - 1] == '/'
  {
    assert url[..8] == "https://";
    assert url[6] == url[..8][6] == '/';
    LastSegmentShorter(url, '/', 6);
    LastSegmentFacts(url, '/');
  }

  /** Deleting a sound saved from an upload's public URL (the bucket's
      https base, '/', the upload path) removes exactly the uploaded
      file. */
  lemma {:induction false} DeleteRemovesUpload(base: string, soundType: string, now: nat, fileName: string)
    requires StartsWith(base, "https://")
    requires '/' !in soundType && '/' !in fileName
    ensures DeletedFileName(Some(base + "/" + UploadPath(soundType, now, fileName)))
         == Some(UploadPath(soundType, now, fileName))
  {
    var path := UploadPath(soundType, now, fileName);
    var url := base + "/" + path;
    UploadPathNoSlash(soundType, now, fileName);
    LastSegmentAfter(base, path, '/');
    assert url == base + ['/'] + path;
    assert url[..8] == base[..8];
    UploadPathPrefix(soundType, now, fileName);
    assert path != "" by {
      assert |path| >= |ToLower(soundType) + "-custom-"|;
    }
  }

  /** `soundUrl.startsWith('https://') && !soundUrl.includes(...)`: the
      delete button is shown for a remote URL that is not one of the
      bundled sounds. */
  function ShowDeleteButton(url: string): bool {
    StartsWith(url, "https://")
    && !Contains(url, "sounds/success.mp3") && !Contains(url, "sounds/error.mp3")
  }

  /** The bundled sounds never show the delete button, nor does any URL
      that ends in one of their paths. */
  lemma {:induction false} DeleteButtonHidden(prefix: string)
    ensures !ShowDeleteButton(DefaultSuccess) && !ShowDeleteButton(DefaultError)
    ensures !ShowDeleteButton(prefix + "sounds/success.mp3")
    ensures !ShowDeleteButton(prefix + "sounds/error.mp3")
  {
    assert DefaultSuccess[0] != "https://"[0];
    assert DefaultError[0] != "https://"[0];
    ContainsSuffix(prefix, "sounds/success.mp3");
    ContainsSuffix(prefix, "sounds/error.mp3");
  }

  /** An uploaded sound's public URL (the bucket's https base, '/', the
      upload path) shows the delete button, when the base itself holds
      neither bundled path. */
  lemma {:induction false} DeleteButtonShownForUpload(base: string, soundType: string, now: nat, fileName: string)
    requires StartsWith(base, "https://")
    requires !Contains(base, "sounds/success.mp3") && !Contains(base, "sounds/error.mp3")
    requires soundType == "Success" || soundType == "Error"
    requires '/' !in fileName
    ensures ShowDeleteButton(base + "/" + UploadPath(soundType, now, fileName))
  {
    var path := UploadPath(soundType, now, fileName);
    var url := base + "/" + path;
    assert url[..8] == base[..8];
    var lower := ToLower(soundType);
    ToLowerEach(soundType);
    UploadPathPrefix(soundType, now, fileName);
    assert path[..|lower| + 8] == lower + "-custom-";
    assert '/' !in soundType;
    UploadPathNoSlash(soundType, now, fileName);
    if soundType == "Success" {
      assert path[0] == lower[0] == 's' && path[7] == '-';
      SlashJoinAvoids(base, path, "sounds/success.mp3", 7);
      SlashJoinAvoids(base, path, "sounds/error.mp3", 0);
    } else {
      assert path[0] == lower[0] == 'e' && path[5] == '-';
      SlashJoinAvoids(base, path, "sounds/success.mp3", 0);
      SlashJoinAvoids(base, path, "sounds/error.mp3", 5);
    }
  }

  /** Joining a base and a path without '/' by a '/' creates no new
      occurrence of a string whose only '/' is at index 6, when the part
      after that '/' does not start the path. */
  lemma {:induction false} SlashJoinAvoids(base: string, path: string, q: string, m: nat)
    requires !Contains(base, q) && '/' !in path
    requires |q| > 7 && q[6] == '/'
    requires forall j :: 0 <= j < |q| && j != 6 ==> q[j] != '/'
    requires m < |path| && 7 + m < |q| && path[m] != q[7 + m]
    ensures !Contains(base + "/" + path, q)
  {
    var url := base + "/" + path;
    forall k: nat ensures !MatchesAt(url, q, k) {
      if k + |q| <= |url| {
        if k + |q| <= |base| {
          NotContainsAt(base, q, k);
          assert url[k..k + |q|] == base[k..k + |q|];
        } else if k + 6 < |base| {
          var j := |base| - k;
          assert url[k..k + |q|][j] == url[|base|] == '/';
        } else if k + 6 == |base| {
          assert url[|base| + 1 + m] == path[m];
          assert url[k..k + |q|][7 + m] == path[m];
        } else {
          assert url[k..k + |q|][6] == path[k + 6 - |base| - 1];
        }
      }
    }
    ContainsNone(url, q);
  }

  lemma {:induction false} ContainsSuffix(p: string, q: string)
    ensures Contains(p + q, q)
  {
    assert (p + q)[|p|..|p| + |q|] == q;
    ContainsAt(p + q, q, |p|);
  }

  /** What a file selection ended in. */
  datatype FileOutcome =
    | NoFile
    | Rejected(reason: Rejection)
    | UploadFailed(path: string)
    | UploadedTo(path: string, url: string)

  class SoundCustomizer {
    const soundType: string
    const defaultSound: string
    const storage: LocalStorage
    var soundUrl: string
    var tempUrl: string
    var uploading: bool
    var uploadProgress: int

    /** Between handlers no upload is running. */
    predicate Valid()
      reads this
    {
      !uploading && uploadProgress == 0
    }

    /** The panel starts on the stored custom URL when there is a
        non-empty one, and on the default otherwise; with the bundled
        default that is the URL the player uses. */
    constructor (soundType: string, defaultSound: string, storage: LocalStorage)
      ensures Valid()
      ensures this.soundType == soundType && this.defaultSound == defaultSound && this.storage == storage
      ensures soundUrl == (if HasCustom(storage.items, soundType)
                           then storage.items[StorageKey(soundType)] else defaultSound)
      ensures tempUrl == soundUrl
      ensures defaultSound == DefaultSound(soundType) ==> soundUrl == GetSoundUrl(storage.items, soundType)
    {
      this.soundType := soundType;
      this.defaultSound := defaultSound;
      this.storage := storage;
      var key := StorageKey(soundType);
      var stored := if key in storage.items then storage.items[key] else "";
      soundUrl := if stored != "" then stored else defaultSound;
      tempUrl := soundUrl;
      uploading := false;
      uploadProgress := 0;
      GetSoundUrlPriority(storage.items, soundType);
    }

    /** `handleFileChange`: validate the chosen file and upload it to its
        path; `reply` is the public URL the bucket returns, `None` when
        the upload fails. Only `tempUrl` can change, and only on a
        successful upload. */
    method FileChange(file: Option<AudioFile>, now: nat, reply: Option<string>) returns (outcome: FileOutcome)
      requires Valid()
      modifies this
      ensures Valid()
      ensures file.None? ==> outcome == NoFile
      ensures file.Some? && Validate(file.value).Some? ==> outcome == Rejected(Validate(file.value).value)
      ensures file.Some? && Validate(file.value).None? ==>
        var path := UploadPath(soundType, now, file.value.name);
        outcome == (if reply.Some? && reply.value != "" then UploadedTo(path, reply.value) else UploadFailed(path))
      ensures tempUrl == (if outcome.UploadedTo? then outcome.url else old(tempUrl))
      ensures soundUrl == old(soundUrl)
    {
      if file.None? {
        return NoFile;
      }
      var f := file.value;
      var rejection := Validate(f);
      if rejection.Some? {
        return Rejected(rejection.value);
      }
      uploading := true;
      uploadProgress := 0;
      var path := UploadPath(soundType, now, f.name);
      if reply.Some? && reply.value != "" {
        tempUrl := reply.value;
        uploadProgress := 100;
        outcome := UploadedTo(path, reply.value);
      } else {
        outcome := UploadFailed(path);
      }
      uploading := false;
      uploadProgress := 0;
    }

    /** `handleUrlChange`. */
    method UrlChange(value: string)
      requires Valid()
      modifies this
      ensures Valid()
      ensures tempUrl == value && soundUrl == old(soundUrl)
      ensures uploading == old(uploading) && uploadProgress == old(uploadProgress)
    {
      tempUrl := value;
    }

    /** `handleSave`: store the edited URL and put it in use; from then on
        a non-empty one is what the player plays for this type. */
    method Save()
      requires Valid()
      modifies this, storage
      ensures Valid()
      ensures soundUrl == old(tempUrl) && tempUrl == old(tempUrl)
      ensures storage.items == old(storage.items)[StorageKey(soundType) := old(tempUrl)]
      ensures uploading == old(uploading) && uploadProgress == old(uploadProgress)
      ensures tempUrl != "" ==> GetSoundUrl(storage.items, soundType) == tempUrl
    {
      storage.SetItem(StorageKey(soundType), tempUrl);
      soundUrl := tempUrl;
      if tempUrl != "" {
        SavedUrlIsPlayed(old(storage.items), soundType, tempUrl, soundType);
      }
    }

    /** `handleReset`: back to the default, with the stored URL removed. */
    method Reset()
      requires Valid()
      modifies this, storage
      ensures Valid()
      ensures tempUrl == defaultSound && soundUrl == defaultSound
      ensures storage.items == old(storage.items) - {StorageKey(soundType)}
      ensures uploading == old(uploading) && uploadProgress == old(uploadProgress)
      ensures defaultSound == DefaultSound(soundType) ==> GetSoundUrl(storage.items, soundType) == soundUrl
    {
      tempUrl := defaultSound;
      soundUrl := defaultSound;
      storage.RemoveItem(StorageKey(soundType));
      RemovedUrlFallsBack(old(storage.items), soundType, soundType);
    }

    /** `handleDeleteCustom`: when confirmed, remove the stored file from
        the bucket if it has one (the result of that removal is ignored),
        then reset as `handleReset` does. */
    method DeleteCustom(confirmed: bool) returns (removed: Option<string>)
      requires Valid()
      modifies this, storage
      ensures Valid()
      ensures !confirmed ==> removed == None && unchanged(this) && unchanged(storage)
      ensures confirmed ==>
        && removed == DeletedFileName(
             if StorageKey(soundType) in old(storage.items) then Some(old(storage.items)[StorageKey(soundType)]) else None)
        && tempUrl == defaultSound && soundUrl == defaultSound
        && storage.items == old(storage.items) - {StorageKey(soundType)}
      ensures uploading == old(uploading) && uploadProgress == old(uploadProgress)
    {
      if !confirmed {
        return None;
      }
      var key := StorageKey(soundType);
      var current := if key in storage.items then Some(storage.items[key]) else None;
      removed := None;
      if current.Some? && current.value != "" && StartsWith(current.value, "https://") {
        var fileName := LastSegment(current.value, '/');
        if fileName != "" {
          removed := Some(fileName);
        }
      }
      storage.RemoveItem(key);
      tempUrl := defaultSound;
      soundUrl := defaultSound;
    }
  }
}
