/** Turning uploaded deck files into slide images: a PDF (when it is the
    first file) is rendered page by page, otherwise the image files are
    read in order and numbered from 1. Rendering a PDF and reading a
    file as a data URL are parameters. */
module DeckFiles {
  import opened Js
  import opened PipelineSchema
  import Collections

  /** An uploaded `File`: its name and its MIME type. */
  datatype UploadedFile = UploadedFile(name: string, mimeType: string)

  const PdfType: string := "application/pdf"
  const ImageExtensions: seq<string> := [".jpg", ".jpeg", ".png", ".gif", ".webp"]

  /** `isPDF`. */
  predicate IsPdf(f: UploadedFile) {
    f.mimeType == PdfType || EndsWith(ToLower(f.name), ".pdf")
  }

  /** `isImage`: an `image/` type, or a name ending in one of the image
      extensions, ignoring case — `/\.(jpg|jpeg|png|gif|webp)$/i`. */
  predicate IsImage(f: UploadedFile) {
    StartsWith(f.mimeType, "image/") || exists ext :: ext in ImageExtensions && EndsWith(ToLower(f.name), ext)
  }

  /** Case does not matter for either check, and the type alone decides
      whenever it is `application/pdf` or starts with `image/`. */
  lemma FileChecksIgnoreCase(f: UploadedFile)
    ensures IsPdf(f) <==> IsPdf(f.(name := ToLower(f.name)))
    ensures IsImage(f) <==> IsImage(f.(name := ToLower(f.name)))
    ensures f.mimeType == PdfType ==> IsPdf(f)
    ensures StartsWith(f.mimeType, "image/") ==> IsImage(f)
  {
    ToLowerIsLower(f.name);
    ToLowerOfLower(ToLower(f.name));
  }

  /** The files `isImage` keeps, in order. */
  function ImageFiles(files: seq<UploadedFile>): (r: seq<UploadedFile>)
    ensures |r| <= |files|
    ensures forall f :: f in r <==> f in files && IsImage(f)
    decreases |files|
  {
    if files == [] then []
    else
      var init, last := files[..|files| - 1], files[|files| - 1];
      assert forall f :: f in files <==> f in init || f == last;
      ImageFiles(init) + (if IsImage(last) then [last] else [])
  }

  /** `filter(isImage)` decides file by file: one file is kept alone iff
      it is an image, and the filter of a concatenation is the
      concatenation of the filters. Together these fix every copy of a
      repeated file. */
  lemma {:induction false} ImageFilesAppend(xs: seq<UploadedFile>, ys: seq<UploadedFile>)
    ensures forall f :: ImageFiles([f]) == if IsImage(f) then [f] else []
    ensures ImageFiles(xs + ys) == ImageFiles(xs) + ImageFiles(ys)
    decreases |ys|
  {
    forall f ensures ImageFiles([f]) == if IsImage(f) then [f] else [] {
      assert [f][..0] == [];
    }
    if ys == [] {
      assert xs + ys == xs;
    } else {
      var init, last := ys[..|ys| - 1], ys[|ys| - 1];
      assert (xs + ys)[..|xs + ys| - 1] == xs + init && (xs + ys)[|xs + ys| - 1] == last;
      ImageFilesAppend(xs, init);
      Assoc(ImageFiles(xs), ImageFiles(init), if IsImage(last) then [last] else []);
    }
  }

  /** The image files are taken in their upload order. */
  lemma {:induction false} ImageFilesInOrder(files: seq<UploadedFile>)
    ensures Collections.IsSubsequence(ImageFiles(files), files)
    decreases |files|
  {
    if files != [] {
      var init, last := files[..|files| - 1], files[|files| - 1];
      ImageFilesInOrder(init);
      Collections.SubsequenceSnoc(ImageFiles(init), init, last, IsImage(last));
      assert init + [last] == files;
    }
  }

  /** The first file whose reading fails. */
  function FirstFailure(files: seq<UploadedFile>, read: UploadedFile -> Call<string>): (k: nat)
    requires exists i :: 0 <= i < |files| && read(files[i]).Throws?
    ensures k < |files| && read(files[k]).Throws?
    ensures forall i :: 0 <= i < k ==> read(files[i]).Returns?
    decreases |files|
  {
    if read(files[0]).Throws? then 0
    else
      assert exists i :: 0 <= i < |files[1..]| && read(files[1..][i]).Throws? by {
        var i :| 0 <= i < |files| && read(files[i]).Throws?;
        assert files[1..][i - 1] == files[i];
      }
      var k := FirstFailure(files[1..], read);
      assert forall i :: 1 <= i < k + 1 ==> files[i] == files[1..][i - 1];
      k + 1
  }

  /** The slide of the `i`-th read image: pages count from 1. */
  function ImageSlide(i: nat, file: UploadedFile, dataUrl: string): SlideImage {
    SlideImage(i + 1, dataUrl, Some(file.name))
  }

  /** What `imagesToSlides` resolves to: one slide per file, numbered in
      order, or the error of the first file that cannot be read. */
  function ImageSlides(files: seq<UploadedFile>, read: UploadedFile -> Call<string>): (r: Call<seq<SlideImage>>)
    ensures r.Returns? <==> forall i :: 0 <= i < |files| ==> read(files[i]).Returns?
    ensures r.Returns? ==> |r.value| == |files|
    ensures r.Returns? ==> forall i :: 0 <= i < |files| ==> r.value[i] == ImageSlide(i, files[i], read(files[i]).value)
  {
    if forall i :: 0 <= i < |files| ==> read(files[i]).Returns? then
      Returns(seq(|files|, i requires 0 <= i < |files| => ImageSlide(i, files[i], read(files[i]).value)))
    else
      Throws(read(files[FirstFailure(files, read)]).error)
  }

  /** `imagesToSlides`: each file is read in turn and pushed as the next
      slide; a failing read rejects the whole conversion. */
  method ImagesToSlides(files: seq<UploadedFile>, read: UploadedFile -> Call<string>) returns (r: Call<seq<SlideImage>>)
    ensures r == ImageSlides(files, read)
  {
    var slides: seq<SlideImage> := [];
    for i := 0 to |files|
      invariant forall k :: 0 <= k < i ==> read(files[k]).Returns?
      invariant |slides| == i
      invariant forall k :: 0 <= k < i ==> slides[k] == ImageSlide(k, files[k], read(files[k]).value)
    {
      var file := files[i];
      var imageDataUrl := read(file);
      if imageDataUrl.Throws? {
        assert FirstFailure(files, read) == i by {
          var k := FirstFailure(files, read);
          assert !(k < i) && !(i < k);
        }
        return Throws(imageDataUrl.error);
      }
      slides := slides + [ImageSlide(i, file, imageDataUrl.value)];
    }
    assert slides == ImageSlides(files, read).value;
    return Returns(slides);
  }

  /** Every page number is positive and no two slides share one. */
  lemma ImageSlidesPages(files: seq<UploadedFile>, read: UploadedFile -> Call<string>)
    requires ImageSlides(files, read).Returns?
    ensures var s := ImageSlides(files, read).value;
      (forall i :: 0 <= i < |s| ==> s[i].page == i + 1 && s[i].page > 0 && s[i].fileName == Some(files[i].name)) &&
      (forall i, j :: 0 <= i < j < |s| ==> s[i].page < s[j].page)
  {
  }

  /** `processDeckFiles`: nothing for no files; the first file alone when
      it is a PDF; otherwise the image files, numbered after the others
      are dropped. */
  function ProcessDeckFiles(files: seq<UploadedFile>, pdfToImages: UploadedFile -> Call<seq<SlideImage>>,
                            read: UploadedFile -> Call<string>): (r: Call<seq<SlideImage>>)
    ensures files == [] ==> r == Returns([])
    ensures files != [] && IsPdf(files[0]) ==> r == pdfToImages(files[0])
    ensures files != [] && !IsPdf(files[0]) && r.Returns? ==>
      |r.value| == |ImageFiles(files)| && forall i :: 0 <= i < |r.value| ==> r.value[i].page == i + 1
  {
    if |files| == 0 then Returns([])
    else if IsPdf(files[0]) then pdfToImages(files[0])
    else ImageSlides(ImageFiles(files), read)
  }

  /** A leading PDF is the only file converted: the files after it do not
      matter. */
  lemma LeadingPdfAlone(files: seq<UploadedFile>, others: seq<UploadedFile>,
                        pdfToImages: UploadedFile -> Call<seq<SlideImage>>, read: UploadedFile -> Call<string>)
    requires files != [] && IsPdf(files[0])
    ensures ProcessDeckFiles(files, pdfToImages, read) == pdfToImages(files[0])
    ensures ProcessDeckFiles([files[0]] + others, pdfToImages, read) == ProcessDeckFiles(files, pdfToImages, read)
  {
  }

  /** Without a leading PDF, the slides are the image files' in upload
      order, numbered 1..k over the images alone; non-images never reach
      the reader. */
  lemma ImagesNumberedAfterFilter(files: seq<UploadedFile>, pdfToImages: UploadedFile -> Call<seq<SlideImage>>,
                                  read: UploadedFile -> Call<string>, read': UploadedFile -> Call<string>)
    requires files != [] && !IsPdf(files[0])
    requires forall f :: IsImage(f) ==> read(f) == read'(f)
    ensures ProcessDeckFiles(files, pdfToImages, read) == ProcessDeckFiles(files, pdfToImages, read')
    ensures var r, images := ProcessDeckFiles(files, pdfToImages, read), ImageFiles(files);
      r.Returns? ==>
        |r.value| == |images| && Collections.IsSubsequence(images, files) &&
        forall i :: 0 <= i < |r.value| ==>
          r.value[i].page == i + 1 && IsImage(images[i]) && r.value[i].fileName == Some(images[i].name)
  {
    var images := ImageFiles(files);
    ImageFilesInOrder(files);
    assert forall i :: 0 <= i < |images| ==> images[i] in images;
    if ImageSlides(images, read).Returns? {
      assert ImageSlides(images, read).value == ImageSlides(images, read').value;
    }
    if ImageSlides(images, read).Throws? {
      assert FirstFailure(images, read) == FirstFailure(images, read') by {
        var k, k' := FirstFailure(images, read), FirstFailure(images, read');
        assert !(k < k') && !(k' < k);
      }
    }
  }

  lemma NoFilesNoSlides(pdfToImages: UploadedFile -> Call<seq<SlideImage>>, read: UploadedFile -> Call<string>)
    ensures ProcessDeckFiles([], pdfToImages, read) == Returns([])
  {
  }
}
