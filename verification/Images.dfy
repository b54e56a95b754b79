/** The image list of the upload hook: change detection and the two ways it replaces previews by ids. */
module Images {
  import opened Lists
  import opened Schema
  import opened ImageUrl

  // ---- what the list should become ----

  function Previews(images: seq<string>): (ps: seq<string>)
    ensures forall i :: 0 <= i < |ps| ==> IsPreview(ps[i])
  {
    if images == [] then []
    else
      var before := Previews(images[..|images| - 1]);
      if IsPreview(images[|images| - 1]) then before + [images[|images| - 1]] else before
  }

  function Uploaded(images: seq<string>): (ids: seq<string>)
    ensures forall i :: 0 <= i < |ids| ==> !IsPreview(ids[i])
  {
    if images == [] then []
    else
      var before := Uploaded(images[..|images| - 1]);
      if IsPreview(images[|images| - 1]) then before else before + [images[|images| - 1]]
  }

  /** How many previews stand before position i. */
  function Rank(images: seq<string>, i: nat): nat
    requires i <= |images|
  {
    |Previews(images[..i])|
  }

  lemma {:induction false} RankOfPreview(images: seq<string>, i: nat)
    requires i < |images| && IsPreview(images[i])
    ensures Rank(images, i) < |Previews(images)| && Previews(images)[Rank(images, i)] == images[i]
    decreases |images|
  {
    var n := |images| - 1;
    if i == n {
      assert images[..n] == images[..i];
    } else {
      RankOfPreview(images[..n], i);
      assert images[..n][..i] == images[..i];
    }
  }

  lemma {:induction false} PreviewAtRank(images: seq<string>, k: nat) returns (i: nat)
    requires k < |Previews(images)|
    ensures i < |images| && IsPreview(images[i]) && Rank(images, i) == k && images[i] == Previews(images)[k]
    decreases |images|
  {
    var n := |images| - 1;
    if k < |Previews(images[..n])| {
      i := PreviewAtRank(images[..n], k);
      assert images[..n][..i] == images[..i];
    } else {
      i := n;
    }
  }

  /** The reference: the k-th preview becomes the k-th new id and nothing else changes. */
  function InOrder(images: seq<string>, ids: seq<string>): (r: seq<string>)
    requires |ids| == |Previews(images)|
    ensures |r| == |images|
  {
    seq(|images|, i requires 0 <= i < |images| =>
      if IsPreview(images[i]) then RankOfPreview(images, i); ids[Rank(images, i)] else images[i])
  }

  // ---- uploadPending: first match in the result list ----

  function Find(ps: seq<string>, ids: seq<string>, url: string): string
    requires |ps| == |ids|
  {
    if ps == [] then url else if ps[0] == url then ids[0] else Find(ps[1..], ids[1..], url)
  }

  function FirstMatch(images: seq<string>, ids: seq<string>): (r: seq<string>)
    requires |ids| == |Previews(images)|
    ensures |r| == |images|
  {
    seq(|images|, i requires 0 <= i < |images| => Find(Previews(images), ids, images[i]))
  }

  lemma {:induction false} FindMeaning(ps: seq<string>, ids: seq<string>, url: string) returns (k: nat)
    requires |ps| == |ids|
    ensures k <= |ps| && forall j :: 0 <= j < k ==> ps[j] != url
    ensures Find(ps, ids, url) == if k < |ps| then ids[k] else url
    ensures k < |ps| ==> ps[k] == url
  {
    if ps == [] || ps[0] == url {
      k := 0;
    } else {
      k := FindMeaning(ps[1..], ids[1..], url);
      k := k + 1;
      assert forall j :: 1 <= j < k ==> ps[j] == ps[1..][j - 1];
    }
  }

  // ---- uploadAndGetImageIds: a Map filled in order, then `get || url` ----

  function Mapping(ps: seq<string>, ids: seq<string>): map<string, string>
    requires |ps| == |ids|
  {
    if ps == [] then map[] else Mapping(ps[..|ps| - 1], ids[..|ps| - 1])[ps[|ps| - 1] := ids[|ps| - 1]]
  }

  function GetOr(m: map<string, string>, url: string): string {
    if url in m && m[url] != "" then m[url] else url
  }

  function ByMap(images: seq<string>, ids: seq<string>): (r: seq<string>)
    requires |ids| == |Previews(images)|
    ensures |r| == |images|
  {
    var m := Mapping(Previews(images), ids);
    seq(|images|, i requires 0 <= i < |images| => if IsPreview(images[i]) then GetOr(m, images[i]) else images[i])
  }

  lemma {:induction false} MappingMeaning(ps: seq<string>, ids: seq<string>, url: string) returns (k: nat)
    requires |ps| == |ids| && url in ps
    ensures k < |ps| && ps[k] == url && forall j :: k < j < |ps| ==> ps[j] != url
    ensures url in Mapping(ps, ids) && Mapping(ps, ids)[url] == ids[k]
  {
    var n := |ps| - 1;
    if ps[n] == url {
      k := n;
    } else {
      k := MappingMeaning(ps[..n], ids[..n], url);
      assert forall j :: 0 <= j < n ==> ps[j] == ps[..n][j];
    }
  }

  // ---- when the two agree ----

  /** Pairwise different ids, none of them a file:// URL. */
  predicate NewIds(ids: seq<string>) {
    Distinct(ids) && forall k :: 0 <= k < |ids| ==> !IsPreview(ids[k])
  }

  lemma Untouched(images: seq<string>, ids: seq<string>, i: nat)
    requires |ids| == |Previews(images)| && i < |images| && !IsPreview(images[i])
    ensures FirstMatch(images, ids)[i] == images[i]
    ensures ByMap(images, ids)[i] == images[i]
    ensures InOrder(images, ids)[i] == images[i]
  {
    var k := FindMeaning(Previews(images), ids, images[i]);
  }

  /** What each algorithm puts at the place of the k-th preview. */
  lemma Replaced(images: seq<string>, ids: seq<string>, k: nat) returns (i: nat, first: nat, last: nat)
    requires |ids| == |Previews(images)| && k < |ids|
    ensures i < |images| && Rank(images, i) == k && images[i] == Previews(images)[k]
    ensures first <= k <= last < |ids|
    ensures Previews(images)[first] == Previews(images)[k] == Previews(images)[last]
    ensures forall j :: 0 <= j < first || last < j < |ids| ==> Previews(images)[j] != images[i]
    ensures InOrder(images, ids)[i] == ids[k]
    ensures FirstMatch(images, ids)[i] == ids[first]
    ensures ByMap(images, ids)[i] == if ids[last] != "" then ids[last] else images[i]
  {
    var ps := Previews(images);
    i := PreviewAtRank(images, k);
    first := FindMeaning(ps, ids, ps[k]);
    last := MappingMeaning(ps, ids, ps[k]);
  }

  lemma ReplacedAt(images: seq<string>, ids: seq<string>, i: nat)
    requires |ids| == |Previews(images)| && i < |images|
    requires Distinct(Previews(images))
    ensures FirstMatch(images, ids)[i] == InOrder(images, ids)[i]
    ensures "" !in ids ==> ByMap(images, ids)[i] == InOrder(images, ids)[i]
  {
    if IsPreview(images[i]) {
      RankOfPreview(images, i);
      var k := Rank(images, i);
      var first := FindMeaning(Previews(images), ids, images[i]);
      var last := MappingMeaning(Previews(images), ids, images[i]);
      assert ids[last] in ids;
    } else {
      Untouched(images, ids, i);
    }
  }

  /** Duplicate-free previews and non-empty ids make both algorithms the reference. */
  lemma BothReplacementsAreInOrder(images: seq<string>, ids: seq<string>)
    requires |ids| == |Previews(images)| && Distinct(Previews(images))
    ensures FirstMatch(images, ids) == InOrder(images, ids)
    ensures "" !in ids ==> ByMap(images, ids) == InOrder(images, ids)
  {
    forall i | 0 <= i < |images|
      ensures FirstMatch(images, ids)[i] == InOrder(images, ids)[i]
      ensures "" !in ids ==> ByMap(images, ids)[i] == InOrder(images, ids)[i]
    {
      ReplacedAt(images, ids, i);
    }
  }

  lemma DuplicatesSeparate(images: seq<string>, ids: seq<string>)
    requires |ids| == |Previews(images)| && NewIds(ids) && !Distinct(Previews(images))
    ensures FirstMatch(images, ids) != InOrder(images, ids)
    ensures ByMap(images, ids) != InOrder(images, ids)
    ensures FirstMatch(images, ids) != ByMap(images, ids)
  {
    var a: nat, b: nat :| a < b < |ids| && Previews(images)[a] == Previews(images)[b];
    var i, first, last := Replaced(images, ids, a);
    var j, first', last' := Replaced(images, ids, b);
    assert last >= b && first' <= a;
  }

  lemma EmptyIdSeparates(images: seq<string>, ids: seq<string>)
    requires |ids| == |Previews(images)| && Distinct(Previews(images)) && "" in ids
    ensures ByMap(images, ids) != InOrder(images, ids)
  {
    var k: nat :| k < |ids| && ids[k] == "";
    var i, first, last := Replaced(images, ids, k);
  }

  /** With new ids, the algorithms agree exactly on duplicate-free previews and non-empty ids. */
  lemma ReplacementsAgreeExactlyWithoutDuplicates(images: seq<string>, ids: seq<string>)
    requires |ids| == |Previews(images)| && NewIds(ids)
    ensures FirstMatch(images, ids) == InOrder(images, ids) <==> Distinct(Previews(images))
    ensures ByMap(images, ids) == InOrder(images, ids) <==> Distinct(Previews(images)) && "" !in ids
    ensures FirstMatch(images, ids) == ByMap(images, ids) <==> Distinct(Previews(images)) && "" !in ids
  {
    if !Distinct(Previews(images)) {
      DuplicatesSeparate(images, ids);
    } else {
      BothReplacementsAreInOrder(images, ids);
      if "" in ids {
        EmptyIdSeparates(images, ids);
      }
    }
  }

  /** Whatever the duplicates: order and length stay, uploaded entries stay, and no preview is left. */
  lemma NoPreviewLeft(images: seq<string>, ids: seq<string>)
    requires |ids| == |Previews(images)| && forall k :: 0 <= k < |ids| ==> !IsPreview(ids[k])
    ensures forall i :: 0 <= i < |images| ==> !IsPreview(FirstMatch(images, ids)[i])
    ensures "" !in ids ==> forall i :: 0 <= i < |images| ==> !IsPreview(ByMap(images, ids)[i])
    ensures "" !in ids ==> Uploaded(ByMap(images, ids)) == ByMap(images, ids)
    ensures forall i :: 0 <= i < |images| && !IsPreview(images[i]) ==>
              FirstMatch(images, ids)[i] == images[i] == ByMap(images, ids)[i]
  {
    forall i | 0 <= i < |images|
      ensures !IsPreview(FirstMatch(images, ids)[i])
      ensures "" !in ids ==> !IsPreview(ByMap(images, ids)[i])
      ensures !IsPreview(images[i]) ==> FirstMatch(images, ids)[i] == images[i] == ByMap(images, ids)[i]
    {
      if IsPreview(images[i]) {
        RankOfPreview(images, i);
        var first := FindMeaning(Previews(images), ids, images[i]);
        assert images[i] == Previews(images)[Rank(images, i)];
        var last := MappingMeaning(Previews(images), ids, images[i]);
        assert ids[last] in ids;
      } else {
        Untouched(images, ids, i);
      }
    }
    if "" !in ids {
      UploadedKeepsAll(ByMap(images, ids));
    }
  }

  lemma {:induction false} UploadedKeepsAll(images: seq<string>)
    requires forall i :: 0 <= i < |images| ==> !IsPreview(images[i])
    ensures Uploaded(images) == images
  {
    if images != [] {
      UploadedKeepsAll(images[..|images| - 1]);
    }
  }

  // ---- a run of uploads ----

  /** The ids of the uploads up to the first failure. */
  function Succeeded(outcomes: seq<Option<string>>): (ids: seq<string>)
    ensures |ids| <= |outcomes|
  {
    if outcomes == [] || outcomes[0].None? then [] else [outcomes[0].value] + Succeeded(outcomes[1..])
  }

  const UPLOAD_FAILED := "Failed to upload image"
  const PENDING_FAILED := "Failed to upload images"

  function Elements(s: seq<string>): set<string> {
    set x | x in s
  }

  lemma {:induction false} SucceededPrefix(outcomes: seq<Option<string>>, k: nat)
    requires k <= |outcomes| && forall i :: 0 <= i < k ==> outcomes[i].Some?
    ensures |Succeeded(outcomes)| >= k
    ensures forall i :: 0 <= i < k ==> Succeeded(outcomes)[i] == outcomes[i].value
    ensures k < |outcomes| && outcomes[k].None? ==> |Succeeded(outcomes)| == k
  {
    if k > 0 {
      assert forall i :: 0 <= i < k - 1 ==> outcomes[1..][i] == outcomes[i + 1];
      SucceededPrefix(outcomes[1..], k - 1);
    }
  }

  /** The state of one rendered hook; `published` logs the lists handed to onImagesChange. */
  class ImageUpload {
    const images: seq<string>
    const initialImages: seq<string>
    var uploadingImages: set<string>
    var uploadedImages: set<string>
    var isUploading: bool
    var published: seq<seq<string>>
    var errors: seq<string>

    constructor (images: seq<string>, initialImages: seq<string>)
      ensures this.images == images && this.initialImages == initialImages
      ensures uploadingImages == {} && uploadedImages == {} && !isUploading && published == [] && errors == []
    {
      this.images := images;
      this.initialImages := initialImages;
      uploadingImages, uploadedImages, isUploading, published, errors := {}, {}, false, [], [];
    }

    /** The staged comparison says exactly whether a non-empty initial list was changed, duplicates included. */
    method HasUnsavedChanges() returns (changed: bool)
      ensures changed <==> initialImages != [] && initialImages != images
    {
      if |initialImages| == 0 { return false; }
      if |initialImages| != |images| { return true; }
      var initialSet, currentSet := Elements(initialImages), Elements(images);
      if |initialSet| != |currentSet| { return true; }
      for i := 0 to |initialImages| {
        if initialImages[i] !in currentSet { return true; }
      }
      for i := 0 to |initialImages|
        invariant initialImages[..i] == images[..i]
      {
        if initialImages[i] != images[i] { return true; }
      }
      assert initialImages[..|images|] == initialImages && images[..|images|] == images;
      return false;
    }

    /** `outcome` is the id when every size was processed and sent, None when any of that threw. */
    method UploadImage(imageUrl: string, outcome: Option<string>) returns (result: Option<string>)
      modifies this`uploadingImages, this`uploadedImages, this`errors
      ensures !IsPreview(imageUrl) ==>
        result == Some(imageUrl) && uploadingImages == old(uploadingImages) && uploadedImages == old(uploadedImages) &&
        errors == old(errors)
      ensures IsPreview(imageUrl) ==>
        result == outcome && uploadingImages == old(uploadingImages) - {imageUrl} &&
        uploadedImages == old(uploadedImages) + (if outcome.Some? then {imageUrl} else {}) &&
        errors == old(errors) + (if outcome.Some? then [] else [UPLOAD_FAILED])
    {
      if !IsPreview(imageUrl) {
        return Some(imageUrl);
      }
      uploadingImages := uploadingImages + {imageUrl};
      if outcome.Some? {
        uploadedImages := uploadedImages + {imageUrl};
        uploadingImages := uploadingImages - {imageUrl};
      } else {
        uploadingImages := uploadingImages - {imageUrl};
        errors := errors + [UPLOAD_FAILED];
      }
      return outcome;
    }

    /** One upload after the other; the first failure stops the run and publishes nothing. */
    method UploadPending(outcomes: seq<Option<string>>) returns (result: Option<seq<string>>)
      requires |outcomes| == |Previews(images)|
      modifies this
      ensures result.Some? <==> |Succeeded(outcomes)| == |outcomes|
      ensures result.Some? ==>
        result.value == Succeeded(outcomes) && errors == old(errors) &&
        published == old(published) + (if outcomes == [] then [] else [FirstMatch(images, Succeeded(outcomes))])
      ensures result.None? ==> published == old(published) && errors == old(errors) + [UPLOAD_FAILED, PENDING_FAILED]
      ensures uploadedImages == old(uploadedImages) + Elements(Previews(images)[..|Succeeded(outcomes)|])
      ensures uploadingImages == old(uploadingImages) - Elements(Tried(Previews(images), outcomes))
      ensures isUploading == (outcomes == [] && old(isUploading))
    {
      var pending := Previews(images);
      if |pending| == 0 {
        return Some([]);
      }
      isUploading := true;
      var ids: seq<string> := [];
      for k := 0 to |pending|
        invariant |ids| == k && isUploading && published == old(published) && errors == old(errors)
        invariant forall i :: 0 <= i < k ==> outcomes[i] == Some(ids[i])
        invariant uploadedImages == old(uploadedImages) + Elements(pending[..k])
        invariant uploadingImages == old(uploadingImages) - Elements(pending[..k])
      {
        var id := UploadImage(pending[k], outcomes[k]);
        ElementsSnoc(pending, k);
        if id.None? {
          SucceededPrefix(outcomes, k);
          errors := errors + [PENDING_FAILED];
          isUploading := false;
          return None;
        }
        ids := ids + [id.value];
      }
      SucceededPrefix(outcomes, |outcomes|);
      assert ids == Succeeded(outcomes);
      published := published + [FirstMatch(images, ids)];
      isUploading := false;
      return Some(ids);
    }

    /** Both replacements run on the list of the same render; the caller gets the one built with the Map. */
    method UploadAndGetImageIds(outcomes: seq<Option<string>>) returns (result: Option<seq<string>>)
      requires |outcomes| == |Previews(images)|
      modifies this
      ensures result.Some? <==> |Succeeded(outcomes)| == |outcomes|
      ensures outcomes == [] ==> result == Some(images) && published == old(published)
      ensures result.Some? && outcomes != [] ==>
        published == old(published) + [FirstMatch(images, Succeeded(outcomes)), ByMap(images, Succeeded(outcomes))] &&
        result.value == Uploaded(ByMap(images, Succeeded(outcomes)))
      ensures result.None? ==> published == old(published)
      ensures errors == old(errors) + if result.Some? then [] else [UPLOAD_FAILED, PENDING_FAILED]
      ensures uploadedImages == old(uploadedImages) + Elements(Previews(images)[..|Succeeded(outcomes)|])
      ensures uploadingImages == old(uploadingImages) - Elements(Tried(Previews(images), outcomes))
      ensures isUploading == (outcomes == [] && old(isUploading))
      ensures result.Some? && Distinct(Previews(images)) && Storable(Succeeded(outcomes)) ==>
        result.value == InOrder(images, Succeeded(outcomes)) &&
        forall i :: |old(published)| <= i < |published| ==> published[i] == result.value
    {
      hide Previews, Uploaded, FirstMatch, InOrder, Succeeded, Elements, Tried, Storable, Distinct;
      var pending := Previews(images);
      if |pending| > 0 {
        var uploaded := UploadPending(outcomes);
        if uploaded.None? {
          return None;
        }
        var ids := uploaded.value;
        var urlMapping: map<string, string> := map[];
        for k := 0 to |pending|
          invariant urlMapping == Mapping(pending[..k], ids[..k])
        {
          urlMapping := urlMapping[pending[k] := ids[k]];
          assert pending[..k + 1][..k] == pending[..k] && ids[..k + 1][..k] == ids[..k];
        }
        assert pending[..|pending|] == pending && ids[..|pending|] == ids;
        var updated := seq(|images|, i requires 0 <= i < |images| =>
          if IsPreview(images[i]) then GetOr(urlMapping, images[i]) else images[i]);
        assert updated == ByMap(images, ids);
        published := published + [updated];
        if Distinct(pending) && Storable(ids) {
          DistinctUploads(images, ids);
        }
        return Some(Uploaded(updated));
      } else {
        NothingToUpload(images);
        return Some(Uploaded(images));
      }
    }
  }

  /** Ids that are neither empty nor file:// URLs. */
  predicate Storable(ids: seq<string>) {
    "" !in ids && forall k :: 0 <= k < |ids| ==> !IsPreview(ids[k])
  }

  lemma DistinctUploads(images: seq<string>, ids: seq<string>)
    requires |ids| == |Previews(images)| && Distinct(Previews(images)) && Storable(ids)
    ensures FirstMatch(images, ids) == ByMap(images, ids) == Uploaded(ByMap(images, ids)) == InOrder(images, ids)
  {
    BothReplacementsAreInOrder(images, ids);
    NoPreviewLeft(images, ids);
  }

  lemma NothingToUpload(images: seq<string>)
    requires Previews(images) == []
    ensures Uploaded(images) == images == InOrder(images, [])
    ensures Succeeded([]) == [] && Elements([]) == {} && Tried([], []) == []
  {
    NothingPending(images);
    BothReplacementsAreInOrder(images, []);
    assert FirstMatch(images, []) == images;
  }

  /** The previews that an upload was started for. */
  function Tried(pending: seq<string>, outcomes: seq<Option<string>>): seq<string>
    requires |pending| == |outcomes|
  {
    if |Succeeded(outcomes)| == |outcomes| then pending else pending[..|Succeeded(outcomes)| + 1]
  }

  lemma ElementsSnoc(s: seq<string>, k: nat)
    requires k < |s|
    ensures Elements(s[..k + 1]) == Elements(s[..k]) + {s[k]}
  {
    assert s[..k + 1] == s[..k] + [s[k]];
  }

  lemma {:induction false} NothingPending(images: seq<string>)
    requires Previews(images) == []
    ensures Uploaded(images) == images
  {
    if images != [] {
      NothingPending(images[..|images| - 1]);
    }
  }
}
