/**
 * The overlay's handlers: the photo list edits (upload appends, replace
 * overwrites one entry, remove filters one index out), the extension strip
 * applied to an uploaded track's file name, and the play and panel flags.
 * Object URLs are created by the browser; a handler receives the URLs it
 * would have created, one per selected file, in file order, and an empty
 * sequence when nothing was selected.
 */
module UI {
  import Polaroid
  import App

  // ---------------------------------------------------------------------
  // The photo list
  // ---------------------------------------------------------------------

  /** `handlePhotoUpload`: with at least one file, `[...prev, ...newPhotos]`. */
  function Uploaded(prev: seq<string>, newUrls: seq<string>): (next: seq<string>)
    ensures |next| == |prev| + |newUrls|
    ensures next[..|prev|] == prev
    ensures forall k :: 0 <= k < |newUrls| ==> next[|prev| + k] == newUrls[k]
  {
    if |newUrls| > 0 then prev + newUrls else prev
  }

  /**
   * `handlePhotoReplace`: copy the list, then assign the new URL at the
   * index.  The index comes from the thumbnail being clicked, so it is a
   * position of the list.
   */
  method Replaced(prev: seq<string>, index: nat, newUrls: seq<string>) returns (next: seq<string>)
    requires index < |prev|
    ensures |next| == |prev|
    ensures |newUrls| > 0 ==> next[index] == newUrls[0]
    ensures |newUrls| == 0 ==> next == prev
    ensures |newUrls| > 0 ==> next == prev[index := newUrls[0]]
    ensures forall k :: 0 <= k < |prev| && k != index ==> next[k] == prev[k]
  {
    if |newUrls| == 0 {
      return prev;
    }
    var copy := new string[|prev|](k requires 0 <= k < |prev| => prev[k]);
    copy[index] := newUrls[0];
    next := copy[..];
  }

  /** `prev.filter((_, i) => i !== index)`, as a fold from the end of the list. */
  function Removed(prev: seq<string>, index: int): seq<string>
  {
    if prev == [] then []
    else
      var last := |prev| - 1;
      Removed(prev[..last], index) + (if last != index then [prev[last]] else [])
  }

  /** An index outside the list keeps every entry. */
  lemma {:induction false} RemovedOutOfRange(prev: seq<string>, index: int)
    requires index < 0 || index >= |prev|
    ensures Removed(prev, index) == prev
  {
    if prev != [] {
      RemovedOutOfRange(prev[..|prev| - 1], index);
    }
  }

  /**
   * Inside the list, removal drops exactly that entry: one entry fewer,
   * the ones before it in place and the ones after it moved down by one.
   */
  lemma {:induction false} RemovedInRange(prev: seq<string>, index: int)
    requires 0 <= index < |prev|
    ensures Removed(prev, index) == prev[..index] + prev[index + 1..]
    ensures |Removed(prev, index)| == |prev| - 1
  {
    var last := |prev| - 1;
    if index == last {
      RemovedOutOfRange(prev[..last], index);
    } else {
      RemovedInRange(prev[..last], index);
      assert prev[..last][..index] == prev[..index];
      assert prev[..last][index + 1..] + [prev[last]] == prev[index + 1..];
    }
  }

  /** Removing the photo that was just uploaded gives back the old list. */
  lemma UploadThenRemove(prev: seq<string>, url: string)
    ensures Removed(Uploaded(prev, [url]), |prev|) == prev
  {
    var next := Uploaded(prev, [url]);
    assert next == prev + [url];
    RemovedInRange(next, |prev|);
    assert next[..|prev|] == prev;
  }

  /**
   * The focused index is a position, and removal does not touch it: once
   * an earlier photo (or the focused one) is removed, the same index shows
   * the photo that used to follow it, and when the focus was on the last
   * photo it now points past the end of the list.
   */
  lemma FocusAfterRemoval(prev: seq<string>, removed: nat, focus: Polaroid.Focus)
    requires removed < |prev|
    requires focus.FocusOn? && removed <= focus.index < |prev|
    ensures |Removed(prev, removed)| == |prev| - 1
    ensures focus.index + 1 < |prev| ==> Removed(prev, removed)[focus.index] == prev[focus.index + 1]
    ensures focus.index == |prev| - 1 ==> focus.index >= |Removed(prev, removed)|
  {
    RemovedInRange(prev, removed);
  }

  // ---------------------------------------------------------------------
  // The music title
  // ---------------------------------------------------------------------

  /**
   * Where the pattern `\.[^/.]+$` matches: a dot, followed by at least one
   * character, and no dot or slash between it and the end of the name.
   */
  ghost predicate ExtensionAt(name: string, p: int)
  {
    && 0 <= p < |name| - 1
    && name[p] == '.'
    && forall k :: p < k < |name| ==> name[k] != '.' && name[k] != '/'
  }

  /**
   * Scans the name from position j down to the start: the first dot found
   * starts the extension unless it is the final character; a slash found
   * first means there is no extension.  -1 stands for "no match".
   */
  function ExtensionDot(name: string, j: nat): (p: int)
    requires j <= |name|
    ensures -1 <= p < j
  {
    if j == 0 then -1
    else if name[j - 1] == '.' then (if j < |name| then j - 1 else -1)
    else if name[j - 1] == '/' then -1
    else ExtensionDot(name, j - 1)
  }

  /** `name.replace(/\.[^/.]+$/, "")`. */
  function StripExtension(name: string): string
  {
    var p := ExtensionDot(name, |name|);
    if p < 0 then name else name[..p]
  }

  lemma {:induction false} ExtensionDotCorrect(name: string, j: nat)
    requires j <= |name|
    requires forall k :: j <= k < |name| ==> name[k] != '.' && name[k] != '/'
    ensures ExtensionDot(name, j) >= 0 ==> ExtensionAt(name, ExtensionDot(name, j))
    ensures ExtensionDot(name, j) < 0 ==> forall q :: !ExtensionAt(name, q)
  {
    if j == 0 {
    } else if name[j - 1] == '.' {
      if j == |name| {
        forall q ensures !ExtensionAt(name, q) {
          if 0 <= q < j - 1 {
            assert name[j - 1] == '.';
          }
        }
      }
    } else if name[j - 1] == '/' {
      forall q ensures !ExtensionAt(name, q) {
        if 0 <= q < j - 1 {
          assert name[j - 1] == '/';
        }
      }
    } else {
      ExtensionDotCorrect(name, j - 1);
    }
  }

  /** At most one position matches: a later match would be a dot after the earlier one. */
  lemma ExtensionUnique(name: string, p: int, q: int)
    requires ExtensionAt(name, p) && ExtensionAt(name, q)
    ensures p == q
  {
  }

  /**
   * The strip agrees with the pattern in both directions: where the pattern
   * matches at p the title is the name up to p, and where it matches
   * nowhere the name is kept whole.
   */
  lemma StripMatchesPattern(name: string)
    ensures forall p :: ExtensionAt(name, p) ==> StripExtension(name) == name[..p]
    ensures (forall p :: !ExtensionAt(name, p)) ==> StripExtension(name) == name
  {
    ExtensionDotCorrect(name, |name|);
    var d := ExtensionDot(name, |name|);
    forall p | ExtensionAt(name, p)
      ensures StripExtension(name) == name[..p]
    {
      if d >= 0 {
        ExtensionUnique(name, p, d);
      }
    }
  }

  /** The title is never longer than the name and is always a prefix of it. */
  lemma StripIsPrefix(name: string)
    ensures |StripExtension(name)| <= |name|
    ensures StripExtension(name) == name[..|StripExtension(name)|]
  {
  }

  lemma StripExamples()
    ensures StripExtension("song.mp3") == "song"
    ensures StripExtension("a.b.c") == "a.b"
    ensures StripExtension("noext") == "noext"
    ensures StripExtension("x.") == "x."
    ensures StripExtension("a.b/c") == "a.b/c"
    ensures StripExtension(".bashrc") == ""
  {
    assert ExtensionDot("song.mp3", 8) == 4 by {
      assert ExtensionDot("song.mp3", 7) == ExtensionDot("song.mp3", 6) == ExtensionDot("song.mp3", 5);
    }
    assert "song.mp3"[..4] == "song";
    assert ExtensionDot("a.b.c", 5) == 3 by {
      assert ExtensionDot("a.b.c", 5) == ExtensionDot("a.b.c", 4);
    }
    assert "a.b.c"[..3] == "a.b";
    assert ExtensionDot("noext", 5) == -1 by {
      assert ExtensionDot("noext", 5) == ExtensionDot("noext", 4) == ExtensionDot("noext", 3)
          == ExtensionDot("noext", 2) == ExtensionDot("noext", 1) == ExtensionDot("noext", 0);
    }
    assert ExtensionDot("x.", 2) == -1;
    assert ExtensionDot("a.b/c", 5) == -1 by {
      assert ExtensionDot("a.b/c", 5) == ExtensionDot("a.b/c", 4);
    }
    assert ExtensionDot(".bashrc", 7) == 0 by {
      assert ExtensionDot(".bashrc", 7) == ExtensionDot(".bashrc", 6) == ExtensionDot(".bashrc", 5)
          == ExtensionDot(".bashrc", 4) == ExtensionDot(".bashrc", 3) == ExtensionDot(".bashrc", 2)
          == ExtensionDot(".bashrc", 1);
    }
  }

  // ---------------------------------------------------------------------
  // The overlay's own state and its handlers
  // ---------------------------------------------------------------------

  /** An uploaded track: the file's name and the URL created for it. */
  datatype Track = Track(name: string, url: string)

  /**
   * The overlay: whether music plays (false at first), whether the
   * settings panel is open (true at first), and whether the audio element
   * is mounted, which `toggleMusic` checks first.
   */
  class Overlay {
    const hasAudio: bool
    var isPlaying: bool
    var isPanelExpanded: bool

    constructor (hasAudio: bool)
      ensures this.hasAudio == hasAudio && !isPlaying && isPanelExpanded
    {
      this.hasAudio := hasAudio;
      isPlaying := false;
      isPanelExpanded := true;
    }

    /** `toggleMusic`: nothing without the audio element, otherwise flip the flag. */
    method ToggleMusic()
      modifies this
      ensures !hasAudio ==> isPlaying == old(isPlaying)
      ensures hasAudio ==> isPlaying == !old(isPlaying)
      ensures isPanelExpanded == old(isPanelExpanded)
    {
      if !hasAudio {
        return;
      }
      isPlaying := !isPlaying;
    }

    /** The panel header: flip the panel flag. */
    method TogglePanel()
      modifies this
      ensures isPanelExpanded == !old(isPanelExpanded)
      ensures isPlaying == old(isPlaying)
    {
      isPanelExpanded := !isPanelExpanded;
    }

    method UploadPhotos(app: App.AppState, newUrls: seq<string>)
      modifies app
      ensures app.photos == Uploaded(old(app.photos), newUrls)
      ensures app.treeScale == old(app.treeScale) && app.photoScale == old(app.photoScale)
      ensures app.musicSrc == old(app.musicSrc) && app.musicTitle == old(app.musicTitle)
    {
      app.photos := Uploaded(app.photos, newUrls);
    }

    method ReplacePhoto(app: App.AppState, index: nat, newUrls: seq<string>)
      requires index < |app.photos|
      modifies app
      ensures |app.photos| == |old(app.photos)|
      ensures |newUrls| > 0 ==> app.photos[index] == newUrls[0]
      ensures |newUrls| > 0 ==> app.photos == old(app.photos)[index := newUrls[0]]
      ensures |newUrls| == 0 ==> app.photos == old(app.photos)
      ensures forall k :: 0 <= k < |app.photos| && k != index ==> app.photos[k] == old(app.photos)[k]
      ensures app.treeScale == old(app.treeScale) && app.photoScale == old(app.photoScale)
      ensures app.musicSrc == old(app.musicSrc) && app.musicTitle == old(app.musicTitle)
    {
      var next := Replaced(app.photos, index, newUrls);
      app.photos := next;
    }

    method RemovePhoto(app: App.AppState, index: int)
      modifies app
      ensures app.photos == Removed(old(app.photos), index)
      ensures 0 <= index < |old(app.photos)| ==> app.photos == old(app.photos)[..index] + old(app.photos)[index + 1..]
      ensures !(0 <= index < |old(app.photos)|) ==> app.photos == old(app.photos)
      ensures app.treeScale == old(app.treeScale) && app.photoScale == old(app.photoScale)
      ensures app.musicSrc == old(app.musicSrc) && app.musicTitle == old(app.musicTitle)
    {
      if 0 <= index < |app.photos| {
        RemovedInRange(app.photos, index);
      } else {
        RemovedOutOfRange(app.photos, index);
      }
      app.photos := Removed(app.photos, index);
    }

    /**
     * `handleMusicUpload`: with a file, its URL becomes the source, its
     * name without extension the title, and playback starts if the audio
     * element is mounted.
     */
    method UploadMusic(app: App.AppState, tracks: seq<Track>)
      modifies this, app
      ensures |tracks| > 0 ==> app.musicSrc == tracks[0].url && app.musicTitle == StripExtension(tracks[0].name)
      ensures |tracks| > 0 && hasAudio ==> isPlaying
      ensures |tracks| == 0 || !hasAudio ==> isPlaying == old(isPlaying)
      ensures |tracks| == 0 ==> app.musicSrc == old(app.musicSrc) && app.musicTitle == old(app.musicTitle)
      ensures app.photos == old(app.photos) && app.treeScale == old(app.treeScale) && app.photoScale == old(app.photoScale)
      ensures isPanelExpanded == old(isPanelExpanded)
    {
      if |tracks| > 0 {
        var file := tracks[0];
        app.musicSrc := file.url;
        app.musicTitle := StripExtension(file.name);
        if hasAudio {
          isPlaying := true;
        }
      }
    }
  }
}
