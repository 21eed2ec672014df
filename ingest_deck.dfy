/** The deck ingestion node: it keeps the slide images whose page is set
    and whose image is a `data:image/` URL, in their order. The slides
    come already converted; nothing here can throw, so the node never
    reports an error. */
module IngestDeckNode {
  import opened Js
  import opened PipelineSchema
  import opened Collections
  import GraphBuilder

  /** `slide.page && slide.imageDataUrl && slide.imageDataUrl.startsWith('data:image/')`. */
  predicate ValidSlide(s: SlideImage) {
    s.page != 0 && s.imageDataUrl != "" && StartsWith(s.imageDataUrl, "data:image/")
  }

  /** `slides.filter(ValidSlide)`: exactly the valid slides, none added. */
  function ValidSlides(xs: seq<SlideImage>): (r: seq<SlideImage>)
    ensures forall x :: x in r <==> x in xs && ValidSlide(x)
    ensures forall i :: 0 <= i < |r| ==> ValidSlide(r[i])
    ensures |r| <= |xs|
  {
    if xs == [] then []
    else
      var rest := ValidSlides(xs[1..]);
      assert forall x :: x in xs <==> x == xs[0] || x in xs[1..];
      if ValidSlide(xs[0]) then [xs[0]] + rest else rest
  }

  /** The kept slides are in their original order. */
  lemma {:induction false} ValidSlidesSubsequence(xs: seq<SlideImage>)
    ensures IsSubsequence(ValidSlides(xs), xs)
    decreases |xs|
  {
    if xs != [] {
      ValidSlidesSubsequence(xs[1..]);
      var rest := ValidSlides(xs[1..]);
      if ValidSlide(xs[0]) {
        assert ([xs[0]] + rest)[1..] == rest;
      } else {
        SubsequenceSkip(rest, xs);
      }
    }
  }

  /** `filter` decides slide by slide: one slide is kept alone iff it is
      valid, and the filter of a concatenation is the concatenation of the
      filters. Together these fix every copy of a repeated slide. */
  lemma {:induction false} ValidSlidesAppend(xs: seq<SlideImage>, ys: seq<SlideImage>)
    ensures forall x :: ValidSlides([x]) == if ValidSlide(x) then [x] else []
    ensures ValidSlides(xs + ys) == ValidSlides(xs) + ValidSlides(ys)
    decreases |xs|
  {
    forall x ensures ValidSlides([x]) == if ValidSlide(x) then [x] else [] {
      assert [x][1..] == [];
    }
    if xs == [] {
      assert xs + ys == ys;
    } else {
      var h := if ValidSlide(xs[0]) then [xs[0]] else [];
      assert (xs + ys)[0] == xs[0] && (xs + ys)[1..] == xs[1..] + ys;
      assert ValidSlides(xs + ys) == h + ValidSlides(xs[1..] + ys);
      assert ValidSlides(xs) == h + ValidSlides(xs[1..]);
      ValidSlidesAppend(xs[1..], ys);
      Assoc(h, ValidSlides(xs[1..]), ValidSlides(ys));
    }
  }

  /** Slides that are all valid are kept as they are. */
  lemma {:induction false} ValidSlidesOfValid(xs: seq<SlideImage>)
    requires forall i :: 0 <= i < |xs| ==> ValidSlide(xs[i])
    ensures ValidSlides(xs) == xs
    decreases |xs|
  {
    if xs != [] {
      assert ValidSlide(xs[0]);
      assert forall i :: 0 <= i < |xs[1..]| ==> ValidSlide(xs[1..][i]) by {
        forall i | 0 <= i < |xs[1..]| ensures ValidSlide(xs[1..][i]) {
          assert xs[1..][i] == xs[i + 1];
        }
      }
      ValidSlidesOfValid(xs[1..]);
    }
  }

  /** Filtering twice is filtering once. */
  lemma ValidSlidesIdempotent(xs: seq<SlideImage>)
    ensures ValidSlides(ValidSlides(xs)) == ValidSlides(xs)
  {
    ValidSlidesOfValid(ValidSlides(xs));
  }

  /** Nothing is dropped exactly when every slide is valid. */
  lemma ValidSlidesKeepAllIff(xs: seq<SlideImage>)
    ensures |ValidSlides(xs)| == |xs| <==> forall i :: 0 <= i < |xs| ==> ValidSlide(xs[i])
  {
    if forall i :: 0 <= i < |xs| ==> ValidSlide(xs[i]) {
      ValidSlidesOfValid(xs);
    } else {
      var i :| 0 <= i < |xs| && !ValidSlide(xs[i]);
      ValidSlidesDropsInvalid(xs, i);
    }
  }

  lemma {:induction false} ValidSlidesDropsInvalid(xs: seq<SlideImage>, i: nat)
    requires i < |xs| && !ValidSlide(xs[i])
    ensures |ValidSlides(xs)| < |xs|
    decreases |xs|
  {
    if i > 0 {
      assert xs[1..][i - 1] == xs[i];
      ValidSlidesDropsInvalid(xs[1..], i - 1);
    }
  }

  /** `ingestDeck`: `{ deck_slides: [] }` for missing or empty slides, else
      `{ deck_slides: validSlides }`; no other property is set. */
  function IngestDeck(s: StartupState): (u: Update)
    ensures u.deck_slides.Set? && u.deck_slides.value.Some?
    ensures !GraphBuilder.HasSlides(s) ==> u.deck_slides.value.value == []
    ensures GraphBuilder.HasSlides(s) ==> u.deck_slides.value.value == ValidSlides(s.deck_slides.value)
    ensures u == NoUpdate.(deck_slides := u.deck_slides)
  {
    if s.deck_slides.None? || |s.deck_slides.value| == 0 then NoUpdate.(deck_slides := Set(Some([])))
    else NoUpdate.(deck_slides := Set(Some(ValidSlides(s.deck_slides.value))))
  }

  /** After the node's update is merged, the state holds a list of valid
      slides, a subsequence of the ones it had, and the errors are as
      they were. */
  lemma IngestDeckMerged(s: StartupState)
    ensures var r := GraphBuilder.MergeState(s, IngestDeck(s));
      r.deck_slides.Some? &&
      (forall i :: 0 <= i < |r.deck_slides.value| ==> ValidSlide(r.deck_slides.value[i])) &&
      (s.deck_slides.Some? ==> IsSubsequence(r.deck_slides.value, s.deck_slides.value)) &&
      r.errors == s.errors
  {
    if s.deck_slides.Some? {
      if |s.deck_slides.value| == 0 {
        assert IsSubsequence([], s.deck_slides.value);
      } else {
        ValidSlidesSubsequence(s.deck_slides.value);
      }
    }
  }
}
