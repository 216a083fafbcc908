/** The listing details view without its rendering: the parsed feature list,
    the hero image and the gallery layout. */
module PropertyDetails {
  import opened Wrappers
  import opened Seqs
  import opened Text

  /** The features of a listing: its comma-separated `features` text split at
      the commas, each piece trimmed, and the empty pieces dropped. An empty
      text gives no features. */
  function Features(features: string): (r: seq<string>)
    ensures features == "" ==> r == []
    ensures |r| <= Occurrences(features, ',') + 1
    ensures forall i :: 0 <= i < |r| ==> r[i] != "" && !IsSpace(r[i][0]) && !IsSpace(r[i][|r[i]| - 1])
    ensures forall i :: 0 <= i < |r| ==> ',' !in r[i]
    ensures IsSubsequence(r, Map(Split(features, ','), Trim))
    ensures features != "" ==>
      var t := Map(Split(features, ','), Trim);
      forall j :: 0 <= j < |t| ==> Count(r, t[j]) == if t[j] != "" then Count(t, t[j]) else 0
  {
    if features == "" then []
    else
      var pieces := Split(features, ',');
      var trimmed := Map(pieces, Trim);
      var r := Filter(trimmed, (f: string) => f != "");
      TrimmedPiecesHaveNoComma(features);
      r
  }

  /** No trimmed piece of the text holds a comma. */
  lemma TrimmedPiecesHaveNoComma(features: string)
    ensures var t := Map(Split(features, ','), Trim);
      forall j :: 0 <= j < |t| ==> ',' !in t[j]
  {
    var pieces := Split(features, ',');
    var t := Map(pieces, Trim);
    forall j | 0 <= j < |t| ensures ',' !in t[j] {
      assert t[j] == Trim(pieces[j]);
    }
  }

  /** Splitting, trimming and dropping empties lose no non-blank piece: each
      appears, trimmed, among the features, as many times as it occurs among
      the trimmed pieces. */
  lemma FeaturesKeepNonBlankPieces(features: string, j: nat)
    requires features != "" && j < |Split(features, ',')|
    requires Trim(Split(features, ',')[j]) != ""
    ensures Trim(Split(features, ',')[j]) in Features(features)
    ensures var piece := Trim(Split(features, ',')[j]);
      Count(Features(features), piece) == Count(Map(Split(features, ','), Trim), piece)
  {
    var trimmed := Map(Split(features, ','), Trim);
    assert trimmed[j] == Trim(Split(features, ',')[j]);
  }

  /** `hasImages`: the listing has an image list and it is not empty. */
  predicate HasImages(images: Option<seq<string>>) {
    images.Some? && |images.value| > 0
  }

  /** The image behind the banner: the first image, exactly when there are
      images. */
  function HeroImage(images: Option<seq<string>>): (r: Option<string>)
    ensures r.Some? <==> HasImages(images)
    ensures r.Some? ==> r.value == images.value[0]
  {
    if HasImages(images) then Some(images.value[0]) else None
  }

  /** Gallery tile `idx` of `count` spans both columns of the two-column grid
      exactly when it is the first tile and the count is odd. */
  predicate SpansTwoColumns(idx: nat, count: nat) {
    idx == 0 && count % 2 != 0
  }

  /** Grid cells taken by tile `idx`. */
  function TileWidth(idx: nat, count: nat): nat {
    if SpansTwoColumns(idx, count) then 2 else 1
  }

  /** Grid cells taken by tiles `idx` up to `count`. */
  function CellsFrom(idx: nat, count: nat): nat
    decreases count - idx
  {
    if idx >= count then 0 else TileWidth(idx, count) + CellsFrom(idx + 1, count)
  }

  /** Every tile after the first takes one cell. */
  lemma {:induction false} LaterTilesAreSingle(idx: nat, count: nat)
    requires 1 <= idx <= count
    ensures CellsFrom(idx, count) == count - idx
    decreases count - idx
  {
    if idx < count {
      LaterTilesAreSingle(idx + 1, count);
    }
  }

  /** The gallery fills whole rows: its tiles take an even number of cells,
      one more than the number of images when that number is odd. */
  lemma GalleryFillsRows(count: nat)
    ensures CellsFrom(0, count) == count + count % 2
    ensures CellsFrom(0, count) % 2 == 0
  {
    if count > 0 {
      LaterTilesAreSingle(1, count);
    }
  }
}
