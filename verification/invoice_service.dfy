/** `InvoiceService`: create, list, read, update and delete invoices and the
    file references attached to them.

    The ORM calls of the service are modelled over the two tables they act
    on: the invoice table, a map from the autoincrement id to the scalar
    columns, and the file table, a sequence of rows in insertion order, each
    naming the invoice that owns it. Every service call is atomic. */
module Invoices {
  import opened Wrappers
  import opened InvoiceDto

  /** The scalar columns of an invoice row; the id is its key in the table. */
  datatype InvoiceData = InvoiceData(
    customerName: string,
    invoiceNumber: string,
    totalAmount: int,
    paymentStatus: string)

  /** A row of the file table: its own id, the file reference, and the id of
      the invoice that owns it. */
  datatype FileRow = FileRow(id: int, fileName: string, filePath: string, invoiceId: int)

  /** An invoice row as `invoice.delete` returns it: without its files. */
  datatype InvoiceRecord = InvoiceRecord(id: int, data: InvoiceData)

  /** An invoice read with `include: { files: true }`. */
  datatype InvoiceWithFiles = InvoiceWithFiles(id: int, data: InvoiceData, files: seq<FileRow>)

  /** The success envelope built by `createSuccessResponse`. */
  datatype Response<T> = Response(message: string, data: T)

  /** The HTTP exceptions the service throws to its caller. */
  datatype HttpError = NotFound(message: string) | InternalServerError(message: string)

  /** What a `catch` block of the service receives: an ORM error, which may
      carry a `code`, or an HTTP exception thrown inside the `try`, which
      carries none. */
  datatype Thrown = PrismaError(code: Option<string>) | HttpException(error: HttpError)

  /** The ORM's code for "the record to update or delete does not exist". */
  const RecordNotFound: string := "P2025"

  const NotFoundMessage: string := "Invoice not found"

  /** `handlePrismaError`: the ORM's record-not-found code becomes a 404;
      anything else, an HTTP exception included, becomes a 500 with the
      caller's message. */
  function HandlePrismaError(error: Thrown, defaultMessage: string): (r: HttpError)
    ensures r.NotFound? <==> error == PrismaError(Some(RecordNotFound))
    ensures r.NotFound? ==> r.message == NotFoundMessage
    ensures r.InternalServerError? ==> r.message == defaultMessage
  {
    match error
    case PrismaError(Some(code)) =>
      if code == RecordNotFound then NotFound(NotFoundMessage) else InternalServerError(defaultMessage)
    case _ => InternalServerError(defaultMessage)
  }

  /** `handlePrismaError` as evidently intended: an HTTP exception thrown
      inside the `try` reaches the caller unchanged. */
  function HandleServiceError(error: Thrown, defaultMessage: string): (r: HttpError)
    ensures error.HttpException? ==> r == error.error
  {
    if error.HttpException? then error.error else HandlePrismaError(error, defaultMessage)
  }

  /** The two handlers agree on every ORM error. */
  lemma HandlersAgreeOnPrismaErrors(code: Option<string>, defaultMessage: string)
    ensures HandleServiceError(PrismaError(code), defaultMessage)
         == HandlePrismaError(PrismaError(code), defaultMessage)
    ensures HandleServiceError(PrismaError(code), defaultMessage).NotFound?
        <==> code == Some(RecordNotFound)
  {
  }

  // ---------------------------------------------------------------------
  // The file table
  // ---------------------------------------------------------------------

  /** The rows owned by `invoiceId`, in table order: the `files` relation
      that `include: { files: true }` attaches to an invoice. */
  function FilesOwnedBy(rows: seq<FileRow>, invoiceId: int): seq<FileRow> {
    if rows == [] then []
    else (if rows[0].invoiceId == invoiceId then [rows[0]] else [])
         + FilesOwnedBy(rows[1..], invoiceId)
  }

  /** The table after `file.deleteMany({ where: { invoiceId } })`. */
  function WithoutFilesOf(rows: seq<FileRow>, invoiceId: int): seq<FileRow> {
    if rows == [] then []
    else (if rows[0].invoiceId != invoiceId then [rows[0]] else [])
         + WithoutFilesOf(rows[1..], invoiceId)
  }

  /** The rows a nested `create: files` inserts for `invoiceId`, their ids
      handed out by the table's autoincrement counter from `firstId` on. */
  function NewFileRows(files: seq<FileDto>, invoiceId: int, firstId: int): seq<FileRow> {
    if files == [] then []
    else [FileRow(firstId, files[0].fileName, files[0].filePath, invoiceId)]
         + NewFileRows(files[1..], invoiceId, firstId + 1)
  }

  /** The file references (name and path) of some rows. */
  function FileRefs(rows: seq<FileRow>): seq<FileDto> {
    seq(|rows|, i requires 0 <= i < |rows| => FileDto(rows[i].fileName, rows[i].filePath))
  }

  /** The rows of an invoice are exactly the table's rows that name it. */
  lemma {:induction false} OwnedByMembers(rows: seq<FileRow>, invoiceId: int)
    ensures forall f :: f in FilesOwnedBy(rows, invoiceId) <==> f in rows && f.invoiceId == invoiceId
  {
    if rows != [] {
      OwnedByMembers(rows[1..], invoiceId);
      assert rows == [rows[0]] + rows[1..];
    }
  }

  /** Deleting the files of an invoice keeps exactly the rows of the others. */
  lemma {:induction false} KeptMembers(rows: seq<FileRow>, invoiceId: int)
    ensures forall f :: f in WithoutFilesOf(rows, invoiceId) <==> f in rows && f.invoiceId != invoiceId
  {
    if rows != [] {
      KeptMembers(rows[1..], invoiceId);
      assert rows == [rows[0]] + rows[1..];
    }
  }

  /** The inserted rows carry the supplied references, in order, under
      consecutive ids from `firstId`. */
  lemma {:induction false} NewFileRowsAt(files: seq<FileDto>, invoiceId: int, firstId: int)
    ensures |NewFileRows(files, invoiceId, firstId)| == |files|
    ensures forall i :: 0 <= i < |files| ==>
      NewFileRows(files, invoiceId, firstId)[i]
        == FileRow(firstId + i, files[i].fileName, files[i].filePath, invoiceId)
  {
    if files != [] {
      NewFileRowsAt(files[1..], invoiceId, firstId + 1);
    }
  }

  /** Rows inserted for a list of file references give back exactly that list. */
  lemma FileRefsOfNewRows(files: seq<FileDto>, invoiceId: int, firstId: int)
    ensures FileRefs(NewFileRows(files, invoiceId, firstId)) == files
  {
    NewFileRowsAt(files, invoiceId, firstId);
  }

  ghost predicate IdsIncreasing(rows: seq<FileRow>) {
    forall i, j :: 0 <= i < j < |rows| ==> rows[i].id < rows[j].id
  }

  lemma {:induction false} OwnedByAppend(a: seq<FileRow>, b: seq<FileRow>, invoiceId: int)
    ensures FilesOwnedBy(a + b, invoiceId) == FilesOwnedBy(a, invoiceId) + FilesOwnedBy(b, invoiceId)
  {
    if a == [] {
      assert a + b == b;
    } else {
      var head := if a[0].invoiceId == invoiceId then [a[0]] else [];
      assert (a + b)[0] == a[0];
      assert (a + b)[1..] == a[1..] + b;
      OwnedByAppend(a[1..], b, invoiceId);
      calc {
        FilesOwnedBy(a + b, invoiceId);
        head + FilesOwnedBy(a[1..] + b, invoiceId);
        head + (FilesOwnedBy(a[1..], invoiceId) + FilesOwnedBy(b, invoiceId));
        (head + FilesOwnedBy(a[1..], invoiceId)) + FilesOwnedBy(b, invoiceId);
      }
    }
  }

  lemma OwnedByMembersEverywhere(rows: seq<FileRow>)
    ensures forall id, f :: f in FilesOwnedBy(rows, id) <==> f in rows && f.invoiceId == id
  {
    forall id { OwnedByMembers(rows, id); }
  }

  /** Deleting the files of one invoice empties its own list and leaves every
      other invoice's list as it was. */
  lemma {:induction false} OwnedByAfterDelete(rows: seq<FileRow>, deleted: int, invoiceId: int)
    ensures FilesOwnedBy(WithoutFilesOf(rows, deleted), invoiceId)
         == if invoiceId == deleted then [] else FilesOwnedBy(rows, invoiceId)
  {
    if rows != [] {
      var head := if rows[0].invoiceId != deleted then [rows[0]] else [];
      OwnedByAppend(head, WithoutFilesOf(rows[1..], deleted), invoiceId);
      OwnedByAfterDelete(rows[1..], deleted, invoiceId);
    }
  }

  /** Inserted rows belong to the invoice they were inserted for, and to no
      other. */
  lemma {:induction false} OwnedByNewRows(files: seq<FileDto>, owner: int, firstId: int, invoiceId: int)
    ensures FilesOwnedBy(NewFileRows(files, owner, firstId), invoiceId)
         == if invoiceId == owner then NewFileRows(files, owner, firstId) else []
  {
    if files != [] {
      var row := FileRow(firstId, files[0].fileName, files[0].filePath, owner);
      OwnedByAppend([row], NewFileRows(files[1..], owner, firstId + 1), invoiceId);
      OwnedByNewRows(files[1..], owner, firstId + 1, invoiceId);
    }
  }

  /** Deleting the files of an invoice that owns none changes nothing. */
  lemma {:induction false} DeleteUnownedIsNoOp(rows: seq<FileRow>, invoiceId: int)
    requires forall i :: 0 <= i < |rows| ==> rows[i].invoiceId != invoiceId
    ensures WithoutFilesOf(rows, invoiceId) == rows
  {
    if rows != [] {
      DeleteUnownedIsNoOp(rows[1..], invoiceId);
      assert rows == [rows[0]] + rows[1..];
    }
  }

  /** Deleting rows keeps the remaining ids in increasing order. */
  lemma {:induction false} DeleteKeepsIdsIncreasing(rows: seq<FileRow>, invoiceId: int)
    requires IdsIncreasing(rows)
    ensures IdsIncreasing(WithoutFilesOf(rows, invoiceId))
  {
    if rows != [] {
      var rest := WithoutFilesOf(rows[1..], invoiceId);
      DeleteKeepsIdsIncreasing(rows[1..], invoiceId);
      KeptMembers(rows[1..], invoiceId);
      forall j | 0 <= j < |rest| ensures rows[0].id < rest[j].id {
        assert rest[j] in rows[1..];
        var m :| 0 <= m < |rows[1..]| && rows[1..][m] == rest[j];
        assert rows[m + 1] == rest[j];
      }
    }
  }

  // ---------------------------------------------------------------------
  // Updating an invoice's scalar columns
  // ---------------------------------------------------------------------

  /** The columns a create payload writes. */
  function DataOf(dto: CreateInvoiceDto): InvoiceData {
    InvoiceData(dto.customerName, dto.invoiceNumber, dto.totalAmount, dto.paymentStatus)
  }

  /** `data: { ...updateInvoiceDto }`: a supplied field overwrites its
      column; an absent (`undefined`) one leaves it as it was. */
  function ApplyUpdate(data: InvoiceData, dto: UpdateInvoiceDto): InvoiceData {
    InvoiceData(
      dto.customerName.GetOr(data.customerName),
      dto.invoiceNumber.GetOr(data.invoiceNumber),
      dto.totalAmount.GetOr(data.totalAmount),
      dto.paymentStatus.GetOr(data.paymentStatus))
  }

  /** The empty update changes no column; applying the same update twice is
      applying it once; an update with every field present (a create payload
      read as an update) sets the columns regardless of their old values. */
  lemma ApplyUpdateLaws(data: InvoiceData, other: InvoiceData, dto: UpdateInvoiceDto, create: CreateInvoiceDto)
    ensures ApplyUpdate(data, NoChanges) == data
    ensures ApplyUpdate(ApplyUpdate(data, dto), dto) == ApplyUpdate(data, dto)
    ensures ApplyUpdate(data, AsUpdate(create)) == ApplyUpdate(other, AsUpdate(create)) == DataOf(create)
  {
  }

  /** A column of the result is the supplied value when the field is present
      and the old column otherwise. */
  lemma ApplyUpdateFieldwise(data: InvoiceData, dto: UpdateInvoiceDto)
    ensures var r := ApplyUpdate(data, dto);
      && (dto.customerName.Some? ==> r.customerName == dto.customerName.value)
      && (dto.customerName.None? ==> r.customerName == data.customerName)
      && (dto.invoiceNumber.Some? ==> r.invoiceNumber == dto.invoiceNumber.value)
      && (dto.invoiceNumber.None? ==> r.invoiceNumber == data.invoiceNumber)
      && (dto.totalAmount.Some? ==> r.totalAmount == dto.totalAmount.value)
      && (dto.totalAmount.None? ==> r.totalAmount == data.totalAmount)
      && (dto.paymentStatus.Some? ==> r.paymentStatus == dto.paymentStatus.value)
      && (dto.paymentStatus.None? ==> r.paymentStatus == data.paymentStatus)
  {
  }

  predicate DataWellFormed(data: InvoiceData) {
    data.customerName != "" && data.invoiceNumber != "" && data.paymentStatus != ""
  }

  // ---------------------------------------------------------------------
  // The invariant of the two tables
  // ---------------------------------------------------------------------

  /** Ids are issued by the autoincrement counters, so each is below its
      counter and file ids grow in table order; every file row belongs to an
      invoice that exists. */
  ghost predicate TablesValid(ids: set<int>, rows: seq<FileRow>, nextInvoiceId: int, nextFileId: int) {
    && 1 <= nextInvoiceId && 1 <= nextFileId
    && (forall id :: id in ids ==> 1 <= id < nextInvoiceId)
    && (forall i :: 0 <= i < |rows| ==> 1 <= rows[i].id < nextFileId)
    && IdsIncreasing(rows)
    && (forall i :: 0 <= i < |rows| ==> rows[i].invoiceId in ids)
  }

  /** Every file name and path in the table is non-empty. */
  ghost predicate RowsWellFormed(rows: seq<FileRow>) {
    forall i :: 0 <= i < |rows| ==> rows[i].fileName != "" && rows[i].filePath != ""
  }

  /** The invoice counter is a fresh id; taking it keeps the tables valid. */
  lemma AddInvoiceValid(invoices: map<int, InvoiceData>, rows: seq<FileRow>,
                        nextInvoiceId: int, nextFileId: int, data: InvoiceData)
    requires TablesValid(invoices.Keys, rows, nextInvoiceId, nextFileId)
    ensures nextInvoiceId !in invoices
    ensures TablesValid(invoices[nextInvoiceId := data].Keys, rows, nextInvoiceId + 1, nextFileId)
  {
  }

  /** Inserting file rows for an existing invoice, with ids from the file
      counter, keeps the tables valid; so does inserting well-formed file
      references into a well-formed table. */
  lemma AppendRowsValid(ids: set<int>, rows: seq<FileRow>, nextInvoiceId: int, nextFileId: int,
                        owner: int, files: seq<FileDto>)
    requires TablesValid(ids, rows, nextInvoiceId, nextFileId)
    requires owner in ids
    ensures TablesValid(ids, rows + NewFileRows(files, owner, nextFileId), nextInvoiceId, nextFileId + |files|)
    ensures RowsWellFormed(rows) && AllWellFormed(files) ==>
      RowsWellFormed(rows + NewFileRows(files, owner, nextFileId))
  {
    var created := NewFileRows(files, owner, nextFileId);
    var after := rows + created;
    NewFileRowsAt(files, owner, nextFileId);
    forall i, j | 0 <= i < j < |after| ensures after[i].id < after[j].id {
      if j < |rows| {
      } else if i < |rows| {
        assert after[j] == created[j - |rows|];
      } else {
        assert after[i] == created[i - |rows|] && after[j] == created[j - |rows|];
      }
    }
  }

  /** Deleting the file rows of an invoice keeps the tables valid, also once
      that invoice itself is gone; deleting keeps a well-formed table
      well-formed. */
  lemma DeleteRowsValid(ids: set<int>, rows: seq<FileRow>, nextInvoiceId: int, nextFileId: int, owner: int)
    requires TablesValid(ids, rows, nextInvoiceId, nextFileId)
    ensures TablesValid(ids - {owner}, WithoutFilesOf(rows, owner), nextInvoiceId, nextFileId)
    ensures TablesValid(ids, WithoutFilesOf(rows, owner), nextInvoiceId, nextFileId)
    ensures RowsWellFormed(rows) ==> RowsWellFormed(WithoutFilesOf(rows, owner))
  {
    var after := WithoutFilesOf(rows, owner);
    DeleteKeepsIdsIncreasing(rows, owner);
    KeptMembers(rows, owner);
    forall i | 0 <= i < |after|
      ensures 1 <= after[i].id < nextFileId && after[i].invoiceId in ids - {owner}
      ensures RowsWellFormed(rows) ==> after[i].fileName != "" && after[i].filePath != ""
    {
      assert after[i] in rows;
    }
  }

  /** Inserting rows for `owner` appends them to its file list and leaves
      every other invoice's list as it was. */
  lemma AppendOwnership(rows: seq<FileRow>, owner: int, files: seq<FileDto>, firstId: int)
    ensures FilesOwnedBy(rows + NewFileRows(files, owner, firstId), owner)
         == FilesOwnedBy(rows, owner) + NewFileRows(files, owner, firstId)
    ensures forall k :: k != owner ==>
      FilesOwnedBy(rows + NewFileRows(files, owner, firstId), k) == FilesOwnedBy(rows, k)
  {
    var created := NewFileRows(files, owner, firstId);
    forall k ensures FilesOwnedBy(rows + created, k)
                  == FilesOwnedBy(rows, k) + (if k == owner then created else []) {
      OwnedByAppend(rows, created, k);
      OwnedByNewRows(files, owner, firstId, k);
    }
  }

  /** Deleting the rows of `owner` empties its file list and leaves every
      other invoice's list as it was. */
  lemma DeleteOwnership(rows: seq<FileRow>, owner: int)
    ensures FilesOwnedBy(WithoutFilesOf(rows, owner), owner) == []
    ensures forall k :: k != owner ==> FilesOwnedBy(WithoutFilesOf(rows, owner), k) == FilesOwnedBy(rows, k)
  {
    forall k ensures FilesOwnedBy(WithoutFilesOf(rows, owner), k)
                  == if k == owner then [] else FilesOwnedBy(rows, k) {
      OwnedByAfterDelete(rows, owner, k);
    }
  }

  /** The file table after an update of invoice `id`: its rows deleted when
      `replace` holds, then rows inserted for `files`. The tables stay valid
      (and well-formed, for well-formed files), a replaced list is exactly
      `files`, and no other invoice's list changes. */
  lemma ReplaceFilesFacts(ids: set<int>, rows: seq<FileRow>, nextInvoiceId: int, nextFileId: int,
                          id: int, replace: bool, files: seq<FileDto>)
    requires TablesValid(ids, rows, nextInvoiceId, nextFileId)
    requires id in ids
    ensures var after := (if replace then WithoutFilesOf(rows, id) else rows)
                         + NewFileRows(files, id, nextFileId);
      && TablesValid(ids, after, nextInvoiceId, nextFileId + |files|)
      && (RowsWellFormed(rows) && AllWellFormed(files) ==> RowsWellFormed(after))
      && (replace ==> FileRefs(FilesOwnedBy(after, id)) == files)
      && (!replace && files == [] ==> after == rows)
      && forall k :: k != id ==> FilesOwnedBy(after, k) == FilesOwnedBy(rows, k)
  {
    var kept := if replace then WithoutFilesOf(rows, id) else rows;
    if replace {
      DeleteRowsValid(ids, rows, nextInvoiceId, nextFileId, id);
      DeleteOwnership(rows, id);
      FileRefsOfNewRows(files, id, nextFileId);
    }
    AppendOwnership(kept, id, files, nextFileId);
    AppendRowsValid(ids, kept, nextInvoiceId, nextFileId, id, files);
    if files == [] {
      assert kept + NewFileRows(files, id, nextFileId) == kept;
    }
  }

  /** The tables after `create`: the invoice counter is a fresh id, the new
      invoice owns exactly the inserted rows, which carry the supplied
      references, and every other invoice keeps its list. */
  lemma CreateFacts(invoices: map<int, InvoiceData>, rows: seq<FileRow>,
                    nextInvoiceId: int, nextFileId: int, data: InvoiceData, files: seq<FileDto>)
    requires TablesValid(invoices.Keys, rows, nextInvoiceId, nextFileId)
    ensures nextInvoiceId !in invoices
    ensures var after := rows + NewFileRows(files, nextInvoiceId, nextFileId);
      && TablesValid(invoices[nextInvoiceId := data].Keys, after, nextInvoiceId + 1, nextFileId + |files|)
      && (RowsWellFormed(rows) && AllWellFormed(files) ==> RowsWellFormed(after))
      && FileRefs(FilesOwnedBy(after, nextInvoiceId)) == files
      && forall k :: k != nextInvoiceId ==> FilesOwnedBy(after, k) == FilesOwnedBy(rows, k)
  {
    var id := nextInvoiceId;
    AddInvoiceValid(invoices, rows, nextInvoiceId, nextFileId, data);
    MissingOwnsNothing(invoices.Keys, rows, nextInvoiceId, nextFileId, id);
    AppendRowsValid(invoices[id := data].Keys, rows, id + 1, nextFileId, id, files);
    AppendOwnership(rows, id, files, nextFileId);
    FileRefsOfNewRows(files, id, nextFileId);
  }

  /** An invoice that is not in a valid table owns no file rows. */
  lemma MissingOwnsNothing(ids: set<int>, rows: seq<FileRow>, nextInvoiceId: int, nextFileId: int, id: int)
    requires TablesValid(ids, rows, nextInvoiceId, nextFileId)
    requires id !in ids
    ensures FilesOwnedBy(rows, id) == []
    ensures WithoutFilesOf(rows, id) == rows
  {
    DeleteUnownedIsNoOp(rows, id);
    OwnedByMembers(rows, id);
    if FilesOwnedBy(rows, id) != [] {
      assert FilesOwnedBy(rows, id)[0] in FilesOwnedBy(rows, id);
    }
  }

  /** The tables after `remove(id)`: the file rows of `id` are gone, the
      tables are valid without `id`, every other invoice keeps its list, and
      when `id` was missing the file table is unchanged. */
  lemma RemoveFacts(invoices: map<int, InvoiceData>, rows: seq<FileRow>,
                    nextInvoiceId: int, nextFileId: int, id: int)
    requires TablesValid(invoices.Keys, rows, nextInvoiceId, nextFileId)
    ensures var after := WithoutFilesOf(rows, id);
      && TablesValid((invoices - {id}).Keys, after, nextInvoiceId, nextFileId)
      && (id !in invoices ==> after == rows)
      && (RowsWellFormed(rows) ==> RowsWellFormed(after))
      && FilesOwnedBy(after, id) == []
      && forall k :: k != id ==> FilesOwnedBy(after, k) == FilesOwnedBy(rows, k)
  {
    assert (invoices - {id}).Keys == invoices.Keys - {id};
    DeleteRowsValid(invoices.Keys, rows, nextInvoiceId, nextFileId, id);
    DeleteOwnership(rows, id);
    if id !in invoices {
      MissingOwnsNothing(invoices.Keys, rows, nextInvoiceId, nextFileId, id);
    }
  }

  // ---------------------------------------------------------------------
  // The service
  // ---------------------------------------------------------------------

  class InvoiceService {
    /** The invoice table: id to scalar columns. */
    var invoices: map<int, InvoiceData>
    /** The file table, in insertion order. */
    var fileRows: seq<FileRow>
    /** The autoincrement counters of the two tables. */
    var nextInvoiceId: int
    var nextFileId: int

    ghost predicate Valid()
      reads this
    {
      TablesValid(invoices.Keys, fileRows, nextInvoiceId, nextFileId)
    }

    /** Every stored name, number, status, file name and file path is
        non-empty: what the payload validators guarantee, once stored. */
    ghost predicate HoldsValidatedData()
      reads this
    {
      && (forall id :: id in invoices ==> DataWellFormed(invoices[id]))
      && RowsWellFormed(fileRows)
    }

    constructor ()
      ensures Valid() && HoldsValidatedData()
      ensures invoices == map[] && fileRows == []
    {
      invoices := map[];
      fileRows := [];
      nextInvoiceId := 1;
      nextFileId := 1;
    }

    /** The files of an invoice, as `include: { files: true }` returns them. */
    function FilesOf(id: int): seq<FileRow>
      reads this
    {
      FilesOwnedBy(fileRows, id)
    }

    /** An invoice with its files. */
    function View(id: int): InvoiceWithFiles
      reads this
      requires id in invoices
    {
      InvoiceWithFiles(id, invoices[id], FilesOf(id))
    }

    /** `create`: inserts one invoice under a fresh id, with a file row for
        each supplied file (none when `files` is omitted), and returns it
        with its files; no other invoice changes. */
    method Create(dto: CreateInvoiceDto) returns (r: Response<InvoiceWithFiles>)
      requires Valid()
      modifies this
      ensures Valid()
      ensures r.message == "Invoice created successfully"
      ensures var id := r.data.id;
        && id !in old(invoices)
        && invoices == old(invoices)[id := DataOf(dto)]
        && r.data == View(id)
        && FileRefs(FilesOf(id)) == dto.files.GetOr([])
        && (forall k :: k != id ==> FilesOf(k) == old(FilesOf(k)))
      ensures fileRows == old(fileRows) + NewFileRows(dto.files.GetOr([]), r.data.id, old(nextFileId))
      ensures nextInvoiceId == old(nextInvoiceId) + 1
      ensures nextFileId == old(nextFileId) + |dto.files.GetOr([])|
      ensures old(HoldsValidatedData()) && dto.WellFormed() ==> HoldsValidatedData()
    {
      var id := nextInvoiceId;
      var files := dto.files.GetOr([]);
      CreateFacts(invoices, fileRows, nextInvoiceId, nextFileId, DataOf(dto), files);
      invoices, fileRows, nextInvoiceId, nextFileId :=
        invoices[id := DataOf(dto)], fileRows + NewFileRows(files, id, nextFileId),
        nextInvoiceId + 1, nextFileId + |files|;
      r := Response("Invoice created successfully", View(id));
    }

    /** `findAll`: every invoice with its files, keyed by id; the files
        listed under an invoice are exactly the file rows it owns. */
    function FindAll(): (r: Response<map<int, InvoiceWithFiles>>)
      reads this
      ensures r.message == "Invoices retrieved successfully"
      ensures r.data.Keys == invoices.Keys
      ensures forall id :: id in r.data ==> r.data[id].id == id && r.data[id].data == invoices[id]
      ensures forall id, f :: id in r.data ==>
        (f in r.data[id].files <==> f in fileRows && f.invoiceId == id)
    {
      OwnedByMembersEverywhere(fileRows);
      Response("Invoices retrieved successfully", map id | id in invoices :: View(id))
    }

    /** `findOne` as written: a missing invoice throws a `NotFoundException`
        inside the `try`; its `catch` hands it to `handlePrismaError`, which
        finds no `P2025` code on it and throws a 500 instead. */
    function FindOne(id: int): (r: Result<Response<InvoiceWithFiles>, HttpError>)
      reads this
      ensures r.Ok? <==> id in invoices
      ensures r.Ok? ==> r.value.message == "Invoice retrieved successfully" && r.value.data == View(id)
      ensures r.Err? ==> r.error == InternalServerError("Error retrieving invoice")
    {
      if id in invoices then Ok(Response("Invoice retrieved successfully", View(id)))
      else Err(HandlePrismaError(HttpException(NotFound(NotFoundMessage)), "Error retrieving invoice"))
    }

    /** `findOne` as evidently intended: the `NotFoundException` reaches the
        caller as a 404. */
    function FindOneRethrowing(id: int): (r: Result<Response<InvoiceWithFiles>, HttpError>)
      reads this
      ensures r.Ok? <==> id in invoices
      ensures r.Ok? ==> r.value.message == "Invoice retrieved successfully" && r.value.data == View(id)
      ensures r.Err? ==> r.error == NotFound(NotFoundMessage)
    {
      if id in invoices then Ok(Response("Invoice retrieved successfully", View(id)))
      else Err(HandleServiceError(HttpException(NotFound(NotFoundMessage)), "Error retrieving invoice"))
    }

    /** `update`: on a missing id the ORM raises `P2025`, reported as a 404,
        and nothing changes. Otherwise each supplied scalar overwrites its
        column; a supplied `files` list (the empty one too) replaces the
        invoice's files by exactly that list, while an absent one leaves the
        file table untouched; no other invoice changes. */
    method Update(id: int, dto: UpdateInvoiceDto) returns (r: Result<Response<InvoiceWithFiles>, HttpError>)
      requires Valid()
      modifies this
      ensures Valid()
      ensures r.Ok? <==> id in old(invoices)
      ensures r.Err? ==>
        && r.error == NotFound(NotFoundMessage)
        && invoices == old(invoices) && fileRows == old(fileRows)
        && nextFileId == old(nextFileId)
      ensures r.Ok? ==>
        && invoices == old(invoices)[id := ApplyUpdate(old(invoices)[id], dto)]
        && r.value == Response("Invoice updated successfully", View(id))
        && (dto.files.Some? ==> FileRefs(FilesOf(id)) == dto.files.value)
        && (dto.files.None? ==> fileRows == old(fileRows) && nextFileId == old(nextFileId))
        && (forall k :: k != id ==> FilesOf(k) == old(FilesOf(k)))
      ensures r.Ok? ==>
        && fileRows == (if dto.files.Some? then WithoutFilesOf(old(fileRows), id) else old(fileRows))
                       + NewFileRows(dto.files.GetOr([]), id, old(nextFileId))
        && nextFileId == old(nextFileId) + |dto.files.GetOr([])|
      ensures nextInvoiceId == old(nextInvoiceId)
      ensures old(HoldsValidatedData()) && dto.WellFormed() ==> HoldsValidatedData()
    {
      if id !in invoices {
        r := Err(HandlePrismaError(PrismaError(Some(RecordNotFound)), "Error updating invoice"));
        return;
      }
      // deleteMany: the old files go only when a list is supplied
      var kept := fileRows;
      if dto.files.Some? {
        kept := WithoutFilesOf(fileRows, id);
      }
      // create: files || []
      var files := dto.files.GetOr([]);
      ReplaceFilesFacts(invoices.Keys, fileRows, nextInvoiceId, nextFileId, id, dto.files.Some?, files);
      var data := ApplyUpdate(invoices[id], dto);
      assert invoices[id := data].Keys == invoices.Keys;
      invoices, fileRows, nextFileId :=
        invoices[id := data], kept + NewFileRows(files, id, nextFileId), nextFileId + |files|;
      r := Ok(Response("Invoice updated successfully", View(id)));
    }

    /** `remove`: first deletes every file row of the id, then the invoice,
        returning the deleted row without its files. On a missing id the
        second step raises `P2025`, reported as a 404; since no file row can
        belong to a missing invoice, the first step deleted nothing and the
        tables are as they were. */
    method Remove(id: int) returns (r: Result<Response<InvoiceRecord>, HttpError>)
      requires Valid()
      modifies this
      ensures Valid()
      ensures r.Ok? <==> id in old(invoices)
      ensures r.Err? ==>
        && r.error == NotFound(NotFoundMessage)
        && invoices == old(invoices) && fileRows == old(fileRows)
      ensures r.Ok? ==>
        && r.value == Response("Invoice deleted successfully", InvoiceRecord(id, old(invoices)[id]))
        && invoices == old(invoices) - {id}
        && fileRows == WithoutFilesOf(old(fileRows), id)
      ensures FilesOf(id) == []
      ensures forall k :: k != id ==> FilesOf(k) == old(FilesOf(k))
      ensures nextInvoiceId == old(nextInvoiceId) && nextFileId == old(nextFileId)
      ensures old(HoldsValidatedData()) ==> HoldsValidatedData()
    {
      RemoveFacts(invoices, fileRows, nextInvoiceId, nextFileId, id);
      // file.deleteMany({ where: { invoiceId: id } })
      fileRows := WithoutFilesOf(fileRows, id);
      // invoice.delete({ where: { id } })
      if id !in invoices {
        r := Err(HandlePrismaError(PrismaError(Some(RecordNotFound)), "Error deleting invoice"));
        return;
      }
      var deleted := invoices[id];
      invoices := invoices - {id};
      r := Ok(Response("Invoice deleted successfully", InvoiceRecord(id, deleted)));
    }
  }

  // ---------------------------------------------------------------------
  // Properties relating several operations
  // ---------------------------------------------------------------------

  /** `findOne` on a missing id: as written the caller gets a 500, as
      intended a 404. */
  lemma FindOneMissingIsServerError(s: InvoiceService, id: int)
    requires id !in s.invoices
    ensures s.FindOne(id) == Err(InternalServerError("Error retrieving invoice"))
    ensures s.FindOneRethrowing(id) == Err(NotFound(NotFoundMessage))
  {
  }

  /** The listing and the single read agree: an id is listed exactly when
      it can be read, with the same invoice and files. */
  lemma FindAllAgreesWithFindOne(s: InvoiceService, id: int)
    ensures id in s.FindAll().data <==> s.FindOneRethrowing(id).Ok?
    ensures id in s.FindAll().data ==> s.FindAll().data[id] == s.FindOneRethrowing(id).value.data
  {
  }

  /** In a valid store every file row is listed under exactly one invoice:
      the one it names. */
  lemma EveryFileListedOnce(s: InvoiceService, i: int)
    requires s.Valid()
    requires 0 <= i < |s.fileRows|
    ensures var f := s.fileRows[i];
      && f.invoiceId in s.FindAll().data
      && forall id :: id in s.FindAll().data ==> (f in s.FindAll().data[id].files <==> id == f.invoiceId)
  {
    var f := s.fileRows[i];
    assert f in s.fileRows;
  }
}
