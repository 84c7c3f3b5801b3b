/**
 * The PDF reader plugin: a queue of input files, and for each file read, one
 * image record per embedded image, pages first, images within a page next.
 */
module PdfReader {
  import opened Wrappers
  import opened ImageRecords

  /** An image embedded in a PDF page: its internal name and its bytes. */
  datatype EmbeddedImage = EmbeddedImage(name: string, data: seq<bv8>)

  /** A page of a parsed PDF: its page number and its embedded images in document order. */
  datatype PdfPage = PdfPage(pageNumber: int, images: seq<EmbeddedImage>)

  /** A parsed PDF document: its pages in order. */
  type Document = seq<PdfPage>

  /** The record class produced: the generic image type, or the one a data-type name maps to. */
  datatype RecordClass = GenericImage | ClassFor(dataType: string)

  /** An image record as the reader emits it. */
  datatype ImageRecord = ImageRecord(cls: RecordClass, name: string, data: seq<bv8>, metadata: Metadata)

  /** The framework's mapping from a data-type name to the record class it stands for. */
  function DataTypeToClass(dataType: string): (cls: RecordClass)
    ensures cls != GenericImage
  {
    ClassFor(dataType)
  }

  /** The metadata every record gets: the file it came from and its page number. */
  function PageMeta(file: string, pageNumber: int): (meta: Metadata)
    ensures meta.Keys == {"file", "page"}
    ensures meta["file"] == Text(file) && meta["page"] == Number(pageNumber)
  {
    map["file" := Text(file), "page" := Number(pageNumber)]
  }

  /** The record for one embedded image of a page. */
  function MakeRecord(cls: RecordClass, page: PdfPage, image: EmbeddedImage, file: string): (r: ImageRecord)
    ensures r.cls == cls && r.name == image.name && r.data == image.data
    ensures r.metadata.Keys == {"file", "page"}
    ensures r.metadata["file"] == Text(file) && r.metadata["page"] == Number(page.pageNumber)
  {
    ImageRecord(cls, image.name, image.data, PageMeta(file, page.pageNumber))
  }

  /** The records of one page, one per embedded image, in image order. */
  function PageRecords(cls: RecordClass, page: PdfPage, file: string): (rs: seq<ImageRecord>)
    ensures |rs| == |page.images|
    ensures forall j :: 0 <= j < |rs| ==>
      rs[j].name == page.images[j].name && rs[j].data == page.images[j].data
      && rs[j].metadata == PageMeta(file, page.pageNumber)
  {
    seq(|page.images|, j requires 0 <= j < |page.images| => MakeRecord(cls, page, page.images[j], file))
  }

  /** The records of a whole document: the records of each page, pages in order. */
  function Extract(cls: RecordClass, doc: Document, file: string): (rs: seq<ImageRecord>)
    ensures forall i :: 0 <= i < |rs| ==>
      rs[i].cls == cls && "file" in rs[i].metadata && rs[i].metadata["file"] == Text(file)
  {
    if doc == [] then []
    else Extract(cls, doc[..|doc| - 1], file) + PageRecords(cls, doc[|doc| - 1], file)
  }

  /** The number of embedded images in a document, summed over its pages. */
  function ImageCount(doc: Document): nat
  {
    if doc == [] then 0 else ImageCount(doc[..|doc| - 1]) + |doc[|doc| - 1].images|
  }

  /** A document yields exactly as many records as it has embedded images. */
  lemma {:induction false} ExtractCount(cls: RecordClass, doc: Document, file: string)
    ensures |Extract(cls, doc, file)| == ImageCount(doc)
  {
    if doc != [] {
      ExtractCount(cls, doc[..|doc| - 1], file);
    }
  }

  /** The records of two runs of pages are the records of the first run, then those of the second. */
  lemma {:induction false} ExtractAppend(cls: RecordClass, doc1: Document, doc2: Document, file: string)
    ensures Extract(cls, doc1 + doc2, file) == Extract(cls, doc1, file) + Extract(cls, doc2, file)
  {
    if doc2 != [] {
      var init := doc2[..|doc2| - 1];
      ExtractAppend(cls, doc1, init, file);
      assert (doc1 + doc2)[..|doc1 + doc2| - 1] == doc1 + init;
    } else {
      assert doc1 + doc2 == doc1;
    }
  }

  /**
   * Image j of page p becomes the record at position ImageCount(doc[..p]) + j:
   * all images of earlier pages come first, then the earlier images of page p.
   * The record has the image's name and bytes, and metadata naming the file and page.
   */
  lemma ExtractAt(cls: RecordClass, doc: Document, file: string, p: nat, j: nat)
    requires p < |doc| && j < |doc[p].images|
    ensures ImageCount(doc[..p]) + j < |Extract(cls, doc, file)|
    ensures Extract(cls, doc, file)[ImageCount(doc[..p]) + j]
         == ImageRecord(cls, doc[p].images[j].name, doc[p].images[j].data,
                        PageMeta(file, doc[p].pageNumber))
  {
    var before, after := doc[..p], doc[p + 1..];
    assert doc == before + [doc[p]] + after;
    ExtractAround(cls, before, doc[p], after, file);
    ExtractCount(cls, before, file);
  }

  /** The records of a document split around one page: earlier pages, that page, later pages. */
  lemma ExtractAround(cls: RecordClass, before: Document, page: PdfPage, after: Document, file: string)
    ensures Extract(cls, before + [page] + after, file)
         == Extract(cls, before, file) + PageRecords(cls, page, file) + Extract(cls, after, file)
  {
    ExtractAppend(cls, before + [page], after, file);
    ExtractAppend(cls, before, [page], file);
    assert [page][..0] == [];
  }

  /** Every record comes from some page of the document and carries that page's metadata. */
  lemma {:induction false} ExtractMetadata(cls: RecordClass, doc: Document, file: string, i: nat)
    requires i < |Extract(cls, doc, file)|
    ensures Extract(cls, doc, file)[i].cls == cls
    ensures exists p :: 0 <= p < |doc| && Extract(cls, doc, file)[i].metadata == PageMeta(file, doc[p].pageNumber)
  {
    var init := doc[..|doc| - 1];
    var last := doc[|doc| - 1];
    var before := Extract(cls, init, file);
    if i < |before| {
      ExtractMetadata(cls, init, file, i);
      var p :| 0 <= p < |init| && before[i].metadata == PageMeta(file, init[p].pageNumber);
      assert doc[p] == init[p];
    } else {
      assert Extract(cls, doc, file)[i] == PageRecords(cls, last, file)[i - |before|];
      assert doc[|doc| - 1] == last;
    }
  }

  /** The session shared by the pipeline's stages; it exposes the input being read. */
  class Session {
    var currentInput: Option<string>

    constructor ()
      ensures currentInput == None
    {
      currentInput := None;
    }
  }

  class PdfImageReader {
    var dataType: Option<string>
    var inputs: Option<seq<string>>
    var currentInput: Option<string>
    var outputCls: Option<RecordClass>
    const session: Session

    constructor (dataType: Option<string>, session: Session)
      ensures this.dataType == dataType && this.session == session
      ensures inputs == None && currentInput == None && outputCls == None
    {
      this.dataType := dataType;
      this.session := session;
      inputs := None;
      currentInput := None;
      outputCls := None;
    }

    /** `initialize` has run: there is an input queue and a record class. */
    predicate Initialized()
      reads this
    {
      inputs.Some? && outputCls.Some?
    }

    /**
     * `generates`: the one record class this reader produces, the generic image
     * type when no data type is set, otherwise the class the data type maps to.
     */
    function Generates(): (classes: seq<RecordClass>)
      reads this
      ensures |classes| == 1
      ensures classes[0] == GenericImage <==> dataType.None?
      ensures dataType.Some? ==> classes[0] == DataTypeToClass(dataType.value)
    {
      if dataType.None? then [GenericImage] else [DataTypeToClass(dataType.value)]
    }

    /**
     * `initialize`: fails when no data type is set, before the inputs are taken;
     * otherwise queues the located input files and fixes the record class,
     * which is then the class `Generates` reports.
     */
    method Initialize(located: seq<string>) returns (outcome: Outcome)
      modifies this
      ensures dataType == old(dataType)
      ensures outcome.Fail? <==> dataType.None?
      ensures outcome.Fail? ==> inputs == old(inputs) && outputCls == old(outputCls)
      ensures outcome.Pass? ==> inputs == Some(located) && outputCls == Some(DataTypeToClass(dataType.value))
      ensures outcome.Pass? ==> Initialized() && Generates() == [outputCls.value]
      ensures currentInput == old(currentInput)
    {
      if dataType.None? {
        return Fail("No data type defined!");
      }
      inputs := Some(located);
      outputCls := Some(DataTypeToClass(dataType.value));
      outcome := Pass;
    }

    /** `has_finished`: true exactly when no input file is left in the queue. */
    function HasFinished(): (finished: bool)
      reads this
      requires inputs.Some?
      ensures finished <==> |inputs.value| == 0
    {
      |inputs.value| == 0
    }

    /**
     * `read`: takes the first file off the queue, makes it the current input of
     * the reader and of the session, and returns one record per embedded image
     * of that file, pages in order and images in order within each page.
     * `openPdf` stands for parsing the file at a path. Reading from an empty
     * queue fails and changes nothing.
     */
    method Read(openPdf: string -> Document) returns (result: Result<seq<ImageRecord>>)
      requires Initialized()
      modifies this, session
      ensures Initialized() && outputCls == old(outputCls) && dataType == old(dataType)
      ensures old(inputs.value) == [] ==>
        result.Err? && inputs == old(inputs) && currentInput == old(currentInput)
        && session.currentInput == old(session.currentInput)
      ensures old(inputs.value) != [] ==>
        && inputs.value == old(inputs.value)[1..]
        && currentInput == Some(old(inputs.value)[0])
        && session.currentInput == currentInput
        && result == Ok(Extract(outputCls.value, openPdf(old(inputs.value)[0]), old(inputs.value)[0]))
    {
      if inputs.value == [] {
        return Err("pop from empty list");
      }
      currentInput := Some(inputs.value[0]);
      inputs := Some(inputs.value[1..]);
      session.currentInput := currentInput;
      var file := session.currentInput.value;
      var doc := openPdf(file);
      var cls := outputCls.value;

      var records: seq<ImageRecord> := [];
      var p := 0;
      while p < |doc|
        invariant 0 <= p <= |doc|
        invariant records == Extract(cls, doc[..p], file)
      {
        var page := doc[p];
        var i := 0;
        while i < |page.images|
          invariant 0 <= i <= |page.images|
          invariant records == Extract(cls, doc[..p], file) + PageRecords(cls, page, file)[..i]
        {
          var image := page.images[i];
          var meta := map["file" := Text(file), "page" := Number(page.pageNumber)];
          records := records + [ImageRecord(cls, image.name, image.data, meta)];
          i := i + 1;
        }
        assert PageRecords(cls, page, file)[..i] == PageRecords(cls, page, file);
        assert doc[..p + 1][..p] == doc[..p];
        p := p + 1;
      }
      assert doc[..p] == doc;
      result := Ok(records);
    }
  }
}
