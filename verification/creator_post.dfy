/** The post-creation page: the form schema, the media-file picker with its
    type, size and count limits, removal by index, and the submit guard. */
module CreatorPost {
  import opened Outcomes
  import opened Types
  import Js

  /** A file picked in the browser: its MIME type and size in bytes. */
  datatype MediaFile = MediaFile(name: string, mimeType: string, size: nat)

  /** 50 MiB, the per-file limit. */
  const MaxFileBytes: nat := 50 * 1024 * 1024
  /** At most ten files per post. */
  const MaxFiles: nat := 10
  const MaxTitle: nat := 150
  const MaxDescription: nat := 1000

  /** Why a picked file is refused; the type is checked before the size. */
  datatype FileVerdict = Accepted | InvalidType | TooLarge

  function Verdict(f: MediaFile): (v: FileVerdict)
    ensures v == Accepted <==> (Js.StartsWith(f.mimeType, "image/") || Js.StartsWith(f.mimeType, "video/")) && f.size <= MaxFileBytes
    ensures v == TooLarge ==> (Js.StartsWith(f.mimeType, "image/") || Js.StartsWith(f.mimeType, "video/"))
  {
    if !Js.StartsWith(f.mimeType, "image/") && !Js.StartsWith(f.mimeType, "video/") then InvalidType
    else if f.size > MaxFileBytes then TooLarge
    else Accepted
  }

  /** The files of a selection that pass, in selection order. */
  function ValidFiles(files: seq<MediaFile>): (r: seq<MediaFile>)
    ensures |r| <= |files|
    ensures forall i :: 0 <= i < |r| ==> Verdict(r[i]) == Accepted
    ensures forall f :: f in r <==> f in files && Verdict(f) == Accepted
  {
    if |files| == 0 then []
    else if Verdict(files[0]) == Accepted then [files[0]] + ValidFiles(files[1..])
    else ValidFiles(files[1..])
  }

  /** Filtering keeps relative order: it distributes over concatenation. */
  lemma {:induction false} ValidFilesAppend(a: seq<MediaFile>, b: seq<MediaFile>)
    ensures ValidFiles(a + b) == ValidFiles(a) + ValidFiles(b)
    decreases |a|
  {
    if |a| == 0 {
      assert a + b == b;
    } else {
      assert (a + b)[0] == a[0];
      assert (a + b)[1..] == a[1..] + b;
      ValidFilesAppend(a[1..], b);
    }
  }

  /** `handleFileSelect`: the valid files are appended after the current
      ones, unless that would exceed ten files, in which case the whole
      selection is dropped. So a list of at most ten stays at most ten. */
  function HandleFileSelect(current: seq<MediaFile>, selected: seq<MediaFile>): (r: seq<MediaFile>)
    ensures |current| + |ValidFiles(selected)| > MaxFiles ==> r == current
    ensures |current| + |ValidFiles(selected)| <= MaxFiles ==> r == current + ValidFiles(selected)
    ensures |current| <= MaxFiles ==> |r| <= MaxFiles
    ensures r[..|current|] == current
    ensures forall f :: f in r[|current|..] ==> Verdict(f) == Accepted
  {
    var valid := ValidFiles(selected);
    if |current| + |valid| > MaxFiles then current else current + valid
  }

  /** `removeFile(index)`: keep every position but `index`. */
  function RemoveAt<T>(xs: seq<T>, index: int): (r: seq<T>)
    ensures 0 <= index < |xs| ==> r == xs[..index] + xs[index + 1..]
    ensures !(0 <= index < |xs|) ==> r == xs
  {
    if 0 <= index < |xs| then xs[..index] + xs[index + 1..] else xs
  }

  /** The position in the original list that position `j` of the list
      without `index` came from. */
  function Origin(j: nat, index: int): (k: nat)
    ensures k == j || k == j + 1
  {
    if 0 <= index <= j then j + 1 else j
  }

  /** Removal applies the same index to files and previews, so lists of
      equal length stay equal in length and every remaining file keeps the
      preview it was paired with. */
  lemma RemoveKeepsAlignment<A, B>(files: seq<A>, previews: seq<B>, index: int)
    requires |files| == |previews|
    ensures |RemoveAt(files, index)| == |RemoveAt(previews, index)|
    ensures forall j :: 0 <= j < |RemoveAt(files, index)| ==>
      Origin(j, if 0 <= index < |files| then index else -1) < |files| &&
      RemoveAt(files, index)[j] == files[Origin(j, if 0 <= index < |files| then index else -1)] &&
      RemoveAt(previews, index)[j] == previews[Origin(j, if 0 <= index < |files| then index else -1)]
  {
    if 0 <= index < |files| {
      var fs, ps := RemoveAt(files, index), RemoveAt(previews, index);
      assert fs == files[..index] + files[index + 1..];
      assert ps == previews[..index] + previews[index + 1..];
      forall j | 0 <= j < |fs|
        ensures Origin(j, index) < |files| && fs[j] == files[Origin(j, index)] && ps[j] == previews[Origin(j, index)]
      {
        if j < index {
          assert fs[j] == files[j] && ps[j] == previews[j];
        } else {
          assert fs[j] == files[j + 1] && ps[j] == previews[j + 1];
        }
      }
    } else {
      assert RemoveAt(files, index) == files && RemoveAt(previews, index) == previews;
      forall j | 0 <= j < |files|
        ensures Origin(j, -1) == j
      {
      }
    }
  }

  /** The form's fields. */
  datatype PostForm = PostForm(title: string, description: Option<string>, isPublic: bool)

  datatype FormField = Title | Description

  /** `createPostSchema`: title 1 to 150 UTF-16 code units, optional
      description of at most 1000. */
  function FormErrors(form: PostForm): (errs: set<FormField>)
    ensures Title in errs <==> form.title == "" || Js.Utf16Length(form.title) > MaxTitle
    ensures Description in errs <==> form.description.Some? && Js.Utf16Length(form.description.value) > MaxDescription
  {
    (if Js.Utf16Length(form.title) < 1 || Js.Utf16Length(form.title) > MaxTitle then {Title} else {})
    + (if form.description.Some? && Js.Utf16Length(form.description.value) > MaxDescription then {Description} else {})
  }

  /** Which titles pass, counted in characters: any non-empty title of at
      most 75 characters fits whatever its script, a title of at most 150
      characters outside the astral planes fits, and 76 emoji (152 code
      units) do not. */
  lemma TitleLengthInCharacters(title: string)
    ensures 1 <= |title| <= MaxTitle / 2 ==> Title !in FormErrors(PostForm(title, None, false))
    ensures (forall i :: 0 <= i < |title| ==> !Js.IsAstral(title[i])) ==>
              (Title in FormErrors(PostForm(title, None, false)) <==> |title| < 1 || |title| > MaxTitle)
    ensures var emoji := seq(76, i => '\U{1F600}');
            Title in FormErrors(PostForm(emoji, None, false))
  {
    var emoji := seq(76, i => '\U{1F600}');
    assert forall i :: 0 <= i < |emoji| ==> Js.IsAstral(emoji[i]);
  }

  /** The form as first shown: empty title, premium post. */
  const DefaultForm := PostForm("", None, false)

  /** A new post is premium unless the switch is flipped, and an untouched
      form does not validate. */
  lemma DefaultFormIsPremium()
    ensures !DefaultForm.isPublic
    ensures FormErrors(DefaultForm) == {Title}
  {
  }

  /** The request sent to `createPost`. */
  datatype CreatePostRequest = CreatePostRequest(title: string, description: Option<string>, isPublic: bool, mediaFiles: seq<MediaFile>)

  datatype SubmitOutcome = InvalidForm(errors: set<FormField>) | NoMedia | Create(request: CreatePostRequest)

  /** Submitting: the schema is checked first; then an empty media list is
      refused without calling `createPost`; otherwise the form and the
      files are sent as they are. */
  function Submit(form: PostForm, files: seq<MediaFile>): (r: SubmitOutcome)
    ensures r.InvalidForm? <==> FormErrors(form) != {}
    ensures r.NoMedia? <==> FormErrors(form) == {} && files == []
    ensures r.Create? ==> r.request == CreatePostRequest(form.title, form.description, form.isPublic, files)
    ensures r.Create? ==> 1 <= Js.Utf16Length(r.request.title) <= MaxTitle && |r.request.mediaFiles| > 0
  {
    var errs := FormErrors(form);
    if errs != {} then InvalidForm(errs)
    else if |files| == 0 then NoMedia
    else Create(CreatePostRequest(form.title, form.description, form.isPublic, files))
  }

  /** Every media list the page can reach from empty by picks and removals
      holds at most ten accepted files. */
  datatype PickerAction = Pick(selected: seq<MediaFile>) | Remove(index: int)

  method Replay(actions: seq<PickerAction>) returns (files: seq<MediaFile>)
    ensures |files| <= MaxFiles
    ensures forall i :: 0 <= i < |files| ==> Verdict(files[i]) == Accepted
  {
    files := [];
    for k := 0 to |actions|
      invariant |files| <= MaxFiles
      invariant forall i :: 0 <= i < |files| ==> Verdict(files[i]) == Accepted
    {
      match actions[k]
      case Pick(selected) =>
        files := HandleFileSelect(files, selected);
      case Remove(index) =>
        files := RemoveAt(files, index);
    }
  }
}
