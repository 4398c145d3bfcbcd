/** The request payloads of the invoice endpoints: `CreateInvoiceDto`,
    `CreateFileDto` and `UpdateInvoiceDto`. Their class-validator decorators
    become predicates over the JSON body as it arrives; a body that passes
    them is read into a typed payload, which is what the service receives. */
module InvoiceDto {
  import opened Wrappers

  /** A JSON value of a request body. JSON numbers are modelled as integers:
      the validators only ask whether a value is a number, and the service
      does no arithmetic on it. */
  datatype Json =
    | JBool(b: bool)
    | JNum(n: int)
    | JStr(s: string)
    | JArr(items: seq<Json>)
    | JObj(fields: map<string, Json>)

  /** A request body: a JSON object; a key that is absent is `undefined`. */
  type Body = map<string, Json>

  // ---------------------------------------------------------------------
  // Validators (the decorators)
  // ---------------------------------------------------------------------

  /** `@IsString() @IsNotEmpty()`: a string other than "" (a string of
      blanks is not empty). */
  predicate IsNonEmptyString(v: Json) {
    v.JStr? && v.s != ""
  }

  /** `@IsNumber()`; `@IsNotEmpty()` only refuses "", so it adds nothing for
      a number. No sign or range is imposed. */
  predicate IsNumber(v: Json) {
    v.JNum?
  }

  /** `CreateFileDto`: `fileName` and `filePath` are both non-empty strings. */
  predicate IsValidFileDto(v: Json) {
    && v.JObj?
    && "fileName" in v.fields && IsNonEmptyString(v.fields["fileName"])
    && "filePath" in v.fields && IsNonEmptyString(v.fields["filePath"])
  }

  /** `@IsArray() @ValidateNested({ each: true }) @Type(() => CreateFileDto)`:
      an array whose every element is a valid `CreateFileDto`. */
  predicate IsValidFileList(v: Json) {
    v.JArr? && forall i :: 0 <= i < |v.items| ==> IsValidFileDto(v.items[i])
  }

  /** `CreateInvoiceDto`: three required non-empty strings, a required
      number, and an optional (`@IsOptional()`) list of files. */
  predicate IsValidCreateBody(body: Body) {
    && "customerName" in body && IsNonEmptyString(body["customerName"])
    && "invoiceNumber" in body && IsNonEmptyString(body["invoiceNumber"])
    && "totalAmount" in body && IsNumber(body["totalAmount"])
    && "paymentStatus" in body && IsNonEmptyString(body["paymentStatus"])
    && ("files" in body ==> IsValidFileList(body["files"]))
  }

  /** `UpdateInvoiceDto`: every field is optional; a field that is present
      obeys the same decorator as in the create payload, except that
      `totalAmount` carries no `@IsNotEmpty()`. */
  predicate IsValidUpdateBody(body: Body) {
    && ("customerName" in body ==> IsNonEmptyString(body["customerName"]))
    && ("invoiceNumber" in body ==> IsNonEmptyString(body["invoiceNumber"]))
    && ("totalAmount" in body ==> IsNumber(body["totalAmount"]))
    && ("paymentStatus" in body ==> IsNonEmptyString(body["paymentStatus"]))
    && ("files" in body ==> IsValidFileList(body["files"]))
  }

  // ---------------------------------------------------------------------
  // Typed payloads, as the service receives them
  // ---------------------------------------------------------------------

  datatype FileDto = FileDto(fileName: string, filePath: string) {
    predicate WellFormed() {
      fileName != "" && filePath != ""
    }
  }

  predicate AllWellFormed(files: seq<FileDto>) {
    forall i :: 0 <= i < |files| ==> files[i].WellFormed()
  }

  datatype CreateInvoiceDto = CreateInvoiceDto(
    customerName: string,
    invoiceNumber: string,
    totalAmount: int,
    paymentStatus: string,
    files: Option<seq<FileDto>>)
  {
    predicate WellFormed() {
      && customerName != "" && invoiceNumber != "" && paymentStatus != ""
      && (files.Some? ==> AllWellFormed(files.value))
    }
  }

  datatype UpdateInvoiceDto = UpdateInvoiceDto(
    customerName: Option<string>,
    invoiceNumber: Option<string>,
    totalAmount: Option<int>,
    paymentStatus: Option<string>,
    files: Option<seq<FileDto>>)
  {
    predicate WellFormed() {
      && (customerName.Some? ==> customerName.value != "")
      && (invoiceNumber.Some? ==> invoiceNumber.value != "")
      && (paymentStatus.Some? ==> paymentStatus.value != "")
      && (files.Some? ==> AllWellFormed(files.value))
    }
  }

  /** The update payload with every field absent. */
  const NoChanges := UpdateInvoiceDto(None, None, None, None, None)

  /** A create payload read as an update payload: every field present. */
  function AsUpdate(dto: CreateInvoiceDto): UpdateInvoiceDto {
    UpdateInvoiceDto(Some(dto.customerName), Some(dto.invoiceNumber),
                     Some(dto.totalAmount), Some(dto.paymentStatus), dto.files)
  }

  // ---------------------------------------------------------------------
  // Reading a validated body into a typed payload
  // ---------------------------------------------------------------------

  function ToFileDto(v: Json): (r: FileDto)
    requires IsValidFileDto(v)
    ensures r.WellFormed()
  {
    FileDto(v.fields["fileName"].s, v.fields["filePath"].s)
  }

  function ToFiles(v: Json): (r: seq<FileDto>)
    requires IsValidFileList(v)
    ensures |r| == |v.items|
    ensures AllWellFormed(r)
  {
    seq(|v.items|, i requires 0 <= i < |v.items| => ToFileDto(v.items[i]))
  }

  function OptionalFiles(body: Body): (r: Option<seq<FileDto>>)
    requires "files" in body ==> IsValidFileList(body["files"])
    ensures r.Some? <==> "files" in body
    ensures r.Some? ==> AllWellFormed(r.value)
  {
    if "files" in body then Some(ToFiles(body["files"])) else None
  }

  /** The typed payload of a body that passed the create validators; what
      the validators guaranteed is carried by `WellFormed`. */
  function ToCreateDto(body: Body): (r: CreateInvoiceDto)
    requires IsValidCreateBody(body)
    ensures r.WellFormed()
    ensures r.files.None? <==> "files" !in body
  {
    CreateInvoiceDto(body["customerName"].s, body["invoiceNumber"].s,
                     body["totalAmount"].n, body["paymentStatus"].s,
                     OptionalFiles(body))
  }

  function OptionalString(body: Body, key: string): (r: Option<string>)
    requires key in body ==> body[key].JStr?
    ensures r.Some? <==> key in body
  {
    if key in body then Some(body[key].s) else None
  }

  /** The typed payload of a body that passed the update validators: a field
      is present exactly when its key is. */
  function ToUpdateDto(body: Body): (r: UpdateInvoiceDto)
    requires IsValidUpdateBody(body)
    ensures r.WellFormed()
    ensures r.customerName.Some? <==> "customerName" in body
    ensures r.invoiceNumber.Some? <==> "invoiceNumber" in body
    ensures r.totalAmount.Some? <==> "totalAmount" in body
    ensures r.paymentStatus.Some? <==> "paymentStatus" in body
    ensures r.files.Some? <==> "files" in body
  {
    UpdateInvoiceDto(
      OptionalString(body, "customerName"),
      OptionalString(body, "invoiceNumber"),
      if "totalAmount" in body then Some(body["totalAmount"].n) else None,
      OptionalString(body, "paymentStatus"),
      OptionalFiles(body))
  }

  // ---------------------------------------------------------------------
  // What the decorators admit and refuse
  // ---------------------------------------------------------------------

  /** `totalAmount` must be a number, but any number will do: replacing it
      by zero, a negative or any other number keeps a valid body valid, and
      replacing it by a string (even a numeral) makes it invalid. */
  lemma CreateAmountIsAnyNumber(body: Body, n: int, s: string)
    requires IsValidCreateBody(body)
    ensures IsValidCreateBody(body["totalAmount" := JNum(n)])
    ensures !IsValidCreateBody(body["totalAmount" := JStr(s)])
  {
  }

  /** `files` is optional: dropping it, or sending the empty array, keeps a
      valid body valid. */
  lemma CreateFilesOptional(body: Body)
    requires IsValidCreateBody(body)
    ensures IsValidCreateBody(body - {"files"})
    ensures IsValidCreateBody(body["files" := JArr([])])
  {
  }

  /** A file list is refused as soon as one element has an empty
      `fileName` or an empty `filePath`. */
  lemma EmptyFileFieldRejected(body: Body, i: int)
    requires "files" in body && body["files"].JArr?
    requires 0 <= i < |body["files"].items|
    requires body["files"].items[i].JObj?
    requires var f := body["files"].items[i].fields;
             ("fileName" in f && f["fileName"] == JStr("")) ||
             ("filePath" in f && f["filePath"] == JStr(""))
    ensures !IsValidCreateBody(body) && !IsValidUpdateBody(body)
  {
    assert !IsValidFileDto(body["files"].items[i]);
  }

  /** The empty update payload is valid and reads as "change nothing". */
  lemma EmptyUpdateIsValid()
    ensures IsValidUpdateBody(map[])
    ensures ToUpdateDto(map[]) == NoChanges
  {
  }

  /** In an update, a present `totalAmount` need only be a number, and a
      present `files` may be the empty array. */
  lemma UpdateAmountAndFilesUnconstrained(body: Body, n: int)
    requires IsValidUpdateBody(body)
    ensures IsValidUpdateBody(body["totalAmount" := JNum(n)])
    ensures IsValidUpdateBody(body["files" := JArr([])])
  {
  }

  /** In an update, a present name, number or status must still be a
      non-empty string. */
  lemma UpdateTextFieldsNonEmpty(body: Body, key: string)
    requires key == "customerName" || key == "invoiceNumber" || key == "paymentStatus"
    ensures !IsValidUpdateBody(body[key := JStr("")])
  {
  }

  /** Every valid create body is also a valid update body, and read as an
      update it carries every field of the create payload. */
  lemma CreateBodyIsUpdateBody(body: Body)
    requires IsValidCreateBody(body)
    ensures IsValidUpdateBody(body)
    ensures ToUpdateDto(body) == AsUpdate(ToCreateDto(body))
  {
  }
}
