/** `scripts/dataProductRetrieval_SC8.py`: the header helpers used when a
    file is downloaded, the splitting of an archive response into product
    metadata documents, and the saving of the metadata and data files.

    The network is left out: a query's response arrives as a string, a
    download always succeeds, and the file system is the set of paths that
    exist. */
module DataProductRetrieval {
  import opened Wrappers
  import opened Seqs
  import opened Strings
  import opened Paths

  // ---------------------------------------------------------------------
  // Response headers

  type Headers = map<string, string>

  /** `check_content_length(rec)`: the header carries a length under either
      spelling. */
  function CheckContentLength(rec: Headers): (r: bool)
    ensures r <==> "Content-Length" in rec || "content-length" in rec
  {
    if "Content-Length" in rec then true
    else if "content-length" in rec then true
    else if "Content-Length" in rec then true
    else false
  }

  /** `get_content_length(rec)`: `int()` of the capitalised entry, else of
      the lower-case one, else -1. */
  function GetContentLength(rec: Headers): (r: Result<int>)
    ensures "Content-Length" in rec ==> r == PyInt(rec["Content-Length"])
    ensures "Content-Length" !in rec && "content-length" in rec ==> r == PyInt(rec["content-length"])
    ensures !CheckContentLength(rec) ==> r == Ok(-1)
  {
    if "Content-Length" in rec then LengthEntry(rec, "Content-Length")
    else if "content-length" in rec then LengthEntry(rec, "content-length")
    else if "Content-Length" in rec then LengthEntry(rec, "Content-Length")
    else Ok(-1)
  }

  /** `int(rec[key])`. */
  function LengthEntry(rec: Headers, key: string): Result<int> {
    if key in rec then PyInt(rec[key]) else Err(KeyError(key))
  }

  /** The length entries hold decimal digits, as HTTP requires. */
  predicate DigitLengths(rec: Headers) {
    && ("Content-Length" in rec ==> IsDigits(rec["Content-Length"]))
    && ("content-length" in rec ==> IsDigits(rec["content-length"]))
  }

  /** On well-formed headers the two helpers agree: a length is reported,
      and it is not negative, exactly when the check says one is there. */
  lemma ContentLengthAgrees(rec: Headers)
    requires DigitLengths(rec)
    ensures CheckContentLength(rec) <==> GetContentLength(rec).Ok? && GetContentLength(rec).value >= 0
    ensures !CheckContentLength(rec) ==> GetContentLength(rec) == Ok(-1)
  {
    if "Content-Length" in rec {
      PyIntOfDigits(rec["Content-Length"]);
    } else if "content-length" in rec {
      PyIntOfDigits(rec["content-length"]);
    }
  }

  predicate NoUpperCase(k: string) {
    forall i :: 0 <= i < |k| ==> !('A' <= k[i] <= 'Z')
  }

  /** `downloadDssFile` lower-cases every header name before asking, so
      only the lower-case spelling can be found. */
  lemma LowerCasedHeaders(rec: Headers)
    requires forall k :: k in rec ==> NoUpperCase(k)
    ensures CheckContentLength(rec) == ("content-length" in rec)
    ensures GetContentLength(rec) ==
      if "content-length" in rec then PyInt(rec["content-length"]) else Ok(-1)
  {
    assert !NoUpperCase("Content-Length") by {
      assert "Content-Length"[0] == 'C';
    }
  }

  // ---------------------------------------------------------------------
  // Splitting the archive's response into products

  const ProductSeparator: string := "\n\n"
  const XmlDeclaration: string := "<?xml version=\"1.0\" encoding=\"UTF-8\"?>\n"

  /** `len(ip.strip()) > 0`. */
  predicate HasContent(ip: string) {
    |Strip(ip)| > 0
  }

  function Declare(ip: string): string {
    XmlDeclaration + ip
  }

  /** A chunk has content exactly when one of its characters is not
      whitespace. */
  lemma HasContentIff(ip: string)
    ensures HasContent(ip) <==> exists k :: 0 <= k < |ip| && !IsSpace(ip[k])
  {
    var l := StripLeft(ip);
    StripLeftSuffix(ip);
    StripLeftRemovesSpace(ip);
    StripRightPrefix(l);
    StripRightRemovesSpace(l);
    if l != [] {
      assert !IsSpace(ip[|ip| - |l|]);
    } else {
      assert forall k :: 0 <= k < |ip| ==> IsSpace(ip[k]);
    }
  }

  /** The kept chunks, every one but the first with the XML declaration in
      front. */
  function Declared(kept: seq<string>): (r: seq<string>)
    ensures |r| == |kept|
    ensures |kept| > 0 ==> r[0] == kept[0]
    ensures forall i :: 0 < i < |kept| ==> r[i] == XmlDeclaration + kept[i]
  {
    if kept == [] then [] else [kept[0]] + MapSeq(Declare, kept[1..])
  }

  /** The products of a response: its `"\n\n"`-separated chunks that are not
      blank, in order, declared. */
  function Products(productList: string): seq<string> {
    Declared(Filter(HasContent, SplitOn(productList, ProductSeparator)))
  }

  lemma DeclaredSnoc(kept: seq<string>, ip: string)
    ensures Declared(kept + [ip]) == Declared(kept) + [if |kept| > 0 then XmlDeclaration + ip else ip]
  {
  }

  /** The tail of `getMetadataXml`: nothing when the job did not finish,
      otherwise the products of the response and their count `cip`. */
  method GetMetadataXml(finished: bool, productList: string) returns (retP: seq<string>, cip: nat)
    ensures retP == if finished then Products(productList) else []
    ensures cip == |retP|
  {
    if !finished {
      return [], 0;
    }
    var chunks := SplitOn(productList, ProductSeparator);
    cip := 0;
    retP := [];
    var i := 0;
    while i < |chunks|
      invariant 0 <= i <= |chunks|
      invariant retP == Declared(Filter(HasContent, chunks[..i]))
      invariant cip == |retP|
    {
      var ip := chunks[i];
      var kept := Filter(HasContent, chunks[..i]);
      FilterSnoc(HasContent, chunks[..i], ip);
      assert chunks[..i + 1] == chunks[..i] + [ip];
      if HasContent(ip) {
        DeclaredSnoc(kept, ip);
        assert Filter(HasContent, chunks[..i + 1]) == kept + [ip];
        if cip > 0 {
          ip := XmlDeclaration + ip;
        }
        retP := retP + [ip];
        cip := cip + 1;
      } else {
        assert kept + [] == kept;
        assert Filter(HasContent, chunks[..i + 1]) == kept;
      }
      i := i + 1;
    }
    assert chunks[..|chunks|] == chunks;
  }

  /** Taking the declaration off every product but the first. */
  function Undeclared(ps: seq<string>): seq<string> {
    if ps == [] then []
    else [ps[0]] + MapSeq((p: string) => if StartsWith(p, XmlDeclaration) then p[|XmlDeclaration|..] else p, ps[1..])
  }

  lemma UndeclaredDeclared(kept: seq<string>)
    ensures Undeclared(Declared(kept)) == kept
  {
    if kept != [] {
      var r := Undeclared(Declared(kept));
      forall i | 0 <= i < |kept|
        ensures r[i] == kept[i]
      {
        if i > 0 {
          var d := XmlDeclaration + kept[i];
          assert d[..|XmlDeclaration|] == XmlDeclaration;
          assert d[|XmlDeclaration|..] == kept[i];
        }
      }
    }
  }

  lemma {:induction false} FilterAllKept<T>(keep: T -> bool, s: seq<T>)
    requires forall i :: 0 <= i < |s| ==> keep(s[i])
    ensures Filter(keep, s) == s
  {
    if s != [] {
      assert s == [s[0]] + s[1..];
      FilterCons(keep, s[0], s[1..]);
      FilterAllKept(keep, s[1..]);
    }
  }

  /** The products are exactly the chunks that are not blank, each once and
      in the order of the response; when no chunk is blank, taking the
      declarations off and joining them again gives the response back. */
  lemma ProductsOfResponse(productList: string)
    ensures Undeclared(Products(productList)) == Filter(HasContent, SplitOn(productList, ProductSeparator))
    ensures var chunks := SplitOn(productList, ProductSeparator);
      (forall i :: 0 <= i < |chunks| ==> HasContent(chunks[i])) ==>
        Join(Undeclared(Products(productList)), ProductSeparator) == productList
  {
    var chunks := SplitOn(productList, ProductSeparator);
    UndeclaredDeclared(Filter(HasContent, chunks));
    if forall i :: 0 <= i < |chunks| ==> HasContent(chunks[i]) {
      FilterAllKept(HasContent, chunks);
      JoinSplit(productList, ProductSeparator);
    }
  }

  /** Every product has content, and every chunk with content becomes a
      product. */
  lemma ProductsAreTheNonBlankChunks(productList: string)
    ensures var kept := Filter(HasContent, SplitOn(productList, ProductSeparator));
      && (forall x :: x in kept ==> HasContent(x) && x in SplitOn(productList, ProductSeparator))
      && (forall x :: x in SplitOn(productList, ProductSeparator) && HasContent(x) ==> x in kept)
  {
    FilterMembers(HasContent, SplitOn(productList, ProductSeparator));
  }

  // ---------------------------------------------------------------------
  // Saving metadata and data

  /** `root.find(path).text`: no such element, an element without text, or
      its text. */
  datatype Found = Missing | NoText | Text(value: string)

  /** A product's metadata document, as the XML parser sees it: whether
      `etree.XML` accepts it, and then the elements it finds. A chunk the
      parser rejects (say, half of a document that held a blank line and
      was cut there by the split on blank lines) has `wellFormed` false. */
  datatype Product = Product(xml: string, wellFormed: bool, productType: Found, productId: Found, fileNames: seq<string>)

  /** `ptype[0].upper() + ptype[1:] + '__' + pid + ".xml"`, with the
      exceptions Python raises in evaluation order: both `.text` reads
      first (AttributeError on a missing element), then `ptype[0]`
      (TypeError without text, IndexError on an empty type), then the
      concatenation with `pid` (TypeError without text). */
  function MetadataFilename(ptype: Found, pid: Found): (r: Result<string>)
    ensures r.Ok? <==> ptype.Text? && ptype.value != [] && pid.Text?
    ensures ptype.Missing? || pid.Missing? ==> r == Err(AttributeError)
    ensures !pid.Missing? && ptype.NoText? ==> r == Err(TypeError)
    ensures !pid.Missing? && ptype == Text([]) ==> r == Err(IndexError)
    ensures ptype.Text? && ptype.value != [] && pid.NoText? ==> r == Err(TypeError)
    ensures r.Ok? ==>
      && |r.value| == |ptype.value| + |pid.value| + 6
      && r.value[0] == UpperChar(ptype.value[0])
      && r.value[1..|ptype.value|] == ptype.value[1..]
      && r.value[|ptype.value|..] == "__" + pid.value + ".xml"
  {
    if ptype.Missing? || pid.Missing? then Err(AttributeError)
    else match ptype
      case NoText => Err(TypeError)
      case Text(t) =>
        if t == [] then Err(IndexError)
        else match pid
          case NoText => Err(TypeError)
          case Text(d) =>
            var head := [UpperChar(t[0])] + t[1..];
            assert ([UpperChar(t[0])] + t[1..] + "__" + d + ".xml")[|t|..] == "__" + d + ".xml";
            Ok(head + "__" + d + ".xml")
  }

  /** Two products of one type with the same name only when they share an
      identifier; two identifiers give the same name for types that differ
      only in the case of their first letter. */
  lemma MetadataFilenameIff(t1: string, t2: string, d1: string, d2: string)
    requires t1 != [] && t2 != [] && |t1| == |t2|
    ensures MetadataFilename(Text(t1), Text(d1)) == MetadataFilename(Text(t2), Text(d2)) <==>
      UpperChar(t1[0]) == UpperChar(t2[0]) && t1[1..] == t2[1..] && d1 == d2
  {
    var r1 := MetadataFilename(Text(t1), Text(d1)).value;
    var r2 := MetadataFilename(Text(t2), Text(d2)).value;
    if r1 == r2 {
      assert ("__" + d1 + ".xml")[2..2 + |d1|] == d1;
      assert ("__" + d2 + ".xml")[2..2 + |d2|] == d2;
    }
  }

  /** Where a data file is looked for before it is downloaded. */
  datatype Probe = InWorkingDir | InDataDir

  function ProbePath(probe: Probe, datadir: string, f: string): string {
    if probe.InWorkingDir? then f else PathJoin(datadir, f)
  }

  /** The inner loop of `saveMetaAndData` over a product's data files: a
      file already present is skipped, any other is downloaded into
      `datadir`. The new file system and the files downloaded, in order. */
  function FetchFiles(probe: Probe, files: seq<string>, datadir: string, disk: set<string>): (set<string>, seq<string>) {
    if files == [] then (disk, [])
    else
      var (d, dl) := FetchFiles(probe, files[..|files| - 1], datadir, disk);
      var f := files[|files| - 1];
      if ProbePath(probe, datadir, f) in d then (d, dl)
      else (d + {PathJoin(datadir, f)}, dl + [f])
  }

  /** The outcome of saving: the file system, the downloads made in
      order, and the exception that stopped the loop, if any. */
  datatype Saved = Saved(disk: set<string>, downloads: seq<string>, error: Option<PyError>)

  /** `saveMetaAndData(products, datadir=datadir)`: for each product, the
      document is parsed (XmlParseError when it is not well formed), its
      metadata file is written under its name, then its data files are
      fetched; an exception ends the loop. */
  function SaveAll(probe: Probe, products: seq<Product>, datadir: string, disk: set<string>): Saved {
    if products == [] then Saved(disk, [], None)
    else
      var s := SaveAll(probe, products[..|products| - 1], datadir, disk);
      var p := products[|products| - 1];
      if s.error.Some? then s
      else if !p.wellFormed then Saved(s.disk, s.downloads, Some(XmlParseError))
      else match MetadataFilename(p.productType, p.productId)
        case Err(e) => Saved(s.disk, s.downloads, Some(e))
        case Ok(pfile) =>
          var (d, dl) := FetchFiles(probe, p.fileNames, datadir, s.disk + {pfile});
          Saved(d, s.downloads + dl, None)
  }

  /** The script as written looks for a data file in the working directory,
      but downloads it into `datadir`. */
  function SaveAllAsWritten(products: seq<Product>, datadir: string, disk: set<string>): (r: Saved)
    ensures products == [] ==> r == Saved(disk, [], None)
  {
    SaveAll(InWorkingDir, products, datadir, disk)
  }

  /** As written, a file fetched into a data directory is fetched again by
      the next run: the check never sees it. */
  lemma AsWrittenRefetches(p: Product, datadir: string, disk: set<string>, f: string)
    requires p.wellFormed && p.fileNames == [f]
    requires MetadataFilename(p.productType, p.productId).Ok?
    requires f != MetadataFilename(p.productType, p.productId).value
    requires f !in disk && PathJoin(datadir, f) != f
    ensures SaveAllAsWritten([p], datadir, disk).downloads == [f]
    ensures SaveAllAsWritten([p], datadir, SaveAllAsWritten([p], datadir, disk).disk).downloads == [f]
  {
    var pfile := MetadataFilename(p.productType, p.productId).value;
    SaveOneAsWritten(p, datadir, disk);
    FetchOneAsWritten(f, datadir, disk + {pfile});
    var first := SaveAllAsWritten([p], datadir, disk);
    assert first.disk == disk + {pfile} + {PathJoin(datadir, f)};
    SaveOneAsWritten(p, datadir, first.disk);
    FetchOneAsWritten(f, datadir, first.disk + {pfile});
  }

  lemma SaveOneAsWritten(p: Product, datadir: string, disk: set<string>)
    requires p.wellFormed
    requires MetadataFilename(p.productType, p.productId).Ok?
    ensures SaveAllAsWritten([p], datadir, disk) ==
      var fetched := FetchFiles(InWorkingDir, p.fileNames, datadir, disk + {MetadataFilename(p.productType, p.productId).value});
      Saved(fetched.0, fetched.1, None)
  {
    assert [p][..0] == [];
    assert SaveAll(InWorkingDir, [], datadir, disk) == Saved(disk, [], None);
    var fetched := FetchFiles(InWorkingDir, p.fileNames, datadir, disk + {MetadataFilename(p.productType, p.productId).value});
    assert [] + fetched.1 == fetched.1;
  }

  lemma FetchOneAsWritten(f: string, datadir: string, disk: set<string>)
    requires f !in disk
    ensures FetchFiles(InWorkingDir, [f], datadir, disk) == (disk + {PathJoin(datadir, f)}, [f])
  {
    assert [f][..0] == [];
    assert FetchFiles(InWorkingDir, [], datadir, disk) == (disk, []);
    assert ProbePath(InWorkingDir, datadir, f) == f;
    assert [] + [f] == [f];
  }

  // ---------------------------------------------------------------------
  // The corrected loops: a file is looked for where it is downloaded

  /** The inner loop, looking for each file in the data directory. */
  method DownloadMissing(files: seq<string>, datadir: string, disk0: set<string>)
    returns (disk: set<string>, downloads: seq<string>)
    ensures (disk, downloads) == FetchFiles(InDataDir, files, datadir, disk0)
  {
    disk, downloads := disk0, [];
    var j := 0;
    while j < |files|
      invariant 0 <= j <= |files|
      invariant (disk, downloads) == FetchFiles(InDataDir, files[..j], datadir, disk0)
    {
      var f := files[j];
      assert files[..j + 1][..j] == files[..j];
      if PathJoin(datadir, f) !in disk {
        disk := disk + {PathJoin(datadir, f)};
        downloads := downloads + [f];
      }
      j := j + 1;
    }
    assert files[..|files|] == files;
  }

  /** `saveMetaAndData` with the data directory checked. */
  method SaveMetaAndData(products: seq<Product>, datadir: string, disk0: set<string>)
    returns (disk: set<string>, downloads: seq<string>, error: Option<PyError>)
    ensures Saved(disk, downloads, error) == SaveAll(InDataDir, products, datadir, disk0)
  {
    disk, downloads, error := disk0, [], None;
    var i := 0;
    while i < |products|
      invariant 0 <= i <= |products|
      invariant Saved(disk, downloads, None) == SaveAll(InDataDir, products[..i], datadir, disk0)
    {
      var p := products[i];
      assert products[..i + 1][..i] == products[..i];
      if !p.wellFormed {
        error := Some(XmlParseError);
        SaveStopped(products, datadir, disk0, i + 1);
        return;
      }
      var name := MetadataFilename(p.productType, p.productId);
      if name.Err? {
        error := Some(name.error);
        SaveStopped(products, datadir, disk0, i + 1);
        return;
      }
      var d, dl := DownloadMissing(p.fileNames, datadir, disk + {name.value});
      disk, downloads := d, downloads + dl;
      i := i + 1;
    }
    assert products[..|products|] == products;
  }

  /** A product the parser rejects stops the loop there with
      XmlParseError: nothing of it is written or fetched, and what the
      earlier products saved stays. */
  lemma MalformedProductStops(probe: Probe, products: seq<Product>, datadir: string, disk: set<string>, k: nat)
    requires k < |products| && !products[k].wellFormed
    requires SaveAll(probe, products[..k], datadir, disk).error.None?
    ensures SaveAll(probe, products[..k + 1], datadir, disk) ==
      Saved(SaveAll(probe, products[..k], datadir, disk).disk,
            SaveAll(probe, products[..k], datadir, disk).downloads, Some(XmlParseError))
  {
    assert products[..k + 1][..k] == products[..k];
  }

  /** Once the loop has stopped, later products change nothing. */
  lemma {:induction false} SaveStopped(products: seq<Product>, datadir: string, disk0: set<string>, k: nat)
    requires k <= |products|
    requires SaveAll(InDataDir, products[..k], datadir, disk0).error.Some?
    ensures SaveAll(InDataDir, products, datadir, disk0) == SaveAll(InDataDir, products[..k], datadir, disk0)
    decreases |products| - k
  {
    if k < |products| {
      assert products[..k + 1][..k] == products[..k];
      SaveStopped(products, datadir, disk0, k + 1);
    } else {
      assert products[..k] == products;
    }
  }

  /** Every data file of the products is present in the data directory. */
  predicate Fetched(products: seq<Product>, datadir: string, disk: set<string>) {
    forall i, j :: 0 <= i < |products| && 0 <= j < |products[i].fileNames| ==>
      PathJoin(datadir, products[i].fileNames[j]) in disk
  }

  /** Fetching only adds files, and afterwards every one asked for is there. */
  lemma {:induction false} FetchFilesCovers(files: seq<string>, datadir: string, disk: set<string>)
    ensures disk <= FetchFiles(InDataDir, files, datadir, disk).0
    ensures forall j :: 0 <= j < |files| ==> PathJoin(datadir, files[j]) in FetchFiles(InDataDir, files, datadir, disk).0
  {
    if files != [] {
      FetchFilesCovers(files[..|files| - 1], datadir, disk);
    }
  }

  /** With every file present, fetching downloads nothing. */
  lemma {:induction false} FetchFilesPresent(files: seq<string>, datadir: string, disk: set<string>)
    requires forall j :: 0 <= j < |files| ==> PathJoin(datadir, files[j]) in disk
    ensures FetchFiles(InDataDir, files, datadir, disk) == (disk, [])
  {
    if files != [] {
      FetchFilesPresent(files[..|files| - 1], datadir, disk);
    }
  }

  /** Saving only adds files; when it runs to the end, every data file is
      present afterwards. */
  /** Coverage survives a larger disk and extends by one covered product. */
  lemma FetchedSnoc(init: seq<Product>, p: Product, datadir: string, d0: set<string>, d: set<string>)
    requires Fetched(init, datadir, d0) && d0 <= d
    requires forall j :: 0 <= j < |p.fileNames| ==> PathJoin(datadir, p.fileNames[j]) in d
    ensures Fetched(init + [p], datadir, d)
  {
    var ps := init + [p];
    forall i, j | 0 <= i < |ps| && 0 <= j < |ps[i].fileNames|
      ensures PathJoin(datadir, ps[i].fileNames[j]) in d
    {
      if i < |init| {
        assert ps[i] == init[i];
      }
    }
  }

  lemma {:induction false} SaveCovers(products: seq<Product>, datadir: string, disk: set<string>)
    ensures disk <= SaveAll(InDataDir, products, datadir, disk).disk
    ensures SaveAll(InDataDir, products, datadir, disk).error.None? ==>
      Fetched(products, datadir, SaveAll(InDataDir, products, datadir, disk).disk)
  {
    if products != [] {
      var init := products[..|products| - 1];
      var p := products[|products| - 1];
      SaveCovers(init, datadir, disk);
      var s := SaveAll(InDataDir, init, datadir, disk);
      if s.error.None? {
        var name := MetadataFilename(p.productType, p.productId);
        if p.wellFormed && name.Ok? {
          FetchFilesCovers(p.fileNames, datadir, s.disk + {name.value});
          assert products == init + [p];
          FetchedSnoc(init, p, datadir, s.disk, FetchFiles(InDataDir, p.fileNames, datadir, s.disk + {name.value}).0);
        }
      }
    }
  }

  /** With every data file present, saving downloads nothing and changes no
      more than the metadata files. */
  lemma {:induction false} SavePresent(products: seq<Product>, datadir: string, disk: set<string>)
    requires Fetched(products, datadir, disk)
    ensures SaveAll(InDataDir, products, datadir, disk).downloads == []
    ensures disk <= SaveAll(InDataDir, products, datadir, disk).disk
  {
    if products != [] {
      var init := products[..|products| - 1];
      var p := products[|products| - 1];
      assert Fetched(init, datadir, disk) by {
        forall i, j | 0 <= i < |init| && 0 <= j < |init[i].fileNames|
          ensures PathJoin(datadir, init[i].fileNames[j]) in disk
        {
          assert init[i] == products[i];
        }
      }
      SavePresent(init, datadir, disk);
      var s := SaveAll(InDataDir, init, datadir, disk);
      var name := MetadataFilename(p.productType, p.productId);
      if s.error.None? && p.wellFormed && name.Ok? {
        assert forall j :: 0 <= j < |p.fileNames| ==> PathJoin(datadir, p.fileNames[j]) in s.disk + {name.value} by {
          forall j | 0 <= j < |p.fileNames|
            ensures PathJoin(datadir, p.fileNames[j]) in disk
          {
            assert p == products[|products| - 1];
          }
        }
        FetchFilesPresent(p.fileNames, datadir, s.disk + {name.value});
      }
    }
  }

  /** Looking where the files go, a second run over the same products after
      a complete first run downloads nothing. */
  lemma SecondRunFetchesNothing(products: seq<Product>, datadir: string, disk: set<string>)
    requires SaveAll(InDataDir, products, datadir, disk).error.None?
    ensures SaveAll(InDataDir, products, datadir, SaveAll(InDataDir, products, datadir, disk).disk).downloads == []
  {
    SaveCovers(products, datadir, disk);
    SavePresent(products, datadir, SaveAll(InDataDir, products, datadir, disk).disk);
  }
}
