# Invoice service and filter proxy, modelled in Dafny

This project models the core of a small invoice application:

- **The backend `InvoiceService`** (`Invoices` module, `invoice_service.dfy`).
  - Invoices are created, listed, read, updated and deleted. Each invoice
    owns a list of file references, each a name and a path.
  - The ORM calls are modelled over the two tables they act on:
    - the invoice table, a `map` from the autoincrement id to the scalar
      columns;
    - the file table, a `seq` of rows in insertion order, each naming the
      invoice that owns it.
  - Both autoincrement counters are fields of the `InvoiceService` class,
    and `Create`, `Update` and `Remove` change these fields in place.
  - The class invariant `Valid` holds that ids lie below their counters,
    that file ids grow in table order, and that every file row belongs to
    an existing invoice.
  - The ORM's record-not-found error (`P2025`) becomes a 404. Every other
    error becomes a 500 carrying the operation's message.
- **The request payload validators** (`InvoiceDto` module, `invoice_dto.dfy`).
  - The class-validator decorators of `CreateInvoiceDto`, `CreateFileDto`
    and `UpdateInvoiceDto` become predicates over the JSON body.
  - A body that passes them is read into a typed payload. That payload's
    `WellFormed` predicate carries what the validators guaranteed into
    the service.
- **The query-building half of the frontend filter route** (`FilterRoute`
  module, `filter_route.dfy`).
  - It reads `paymentStatus`, `startDate` and `endDate` from the request.
  - Using a mutable `URLSearchParams` (the `SearchParams` class), it
    appends, in that fixed order, those whose value is not blank after
    `String.prototype.trim`. Each is appended with its original value.
  - It attaches `?query` to the backend URL only when the query is not
    empty.

`Wrappers` (`wrappers.dfy`) holds the `Option` and `Result` types.

## Model

| member | source | states |
|---|---|---|
| Invoices.HandlePrismaError | backend/src/invoice/invoice.service.ts:115-120 | The result is a 404 exactly when the error carries the code `P2025`, and then with the message "Invoice not found". Every other error, an HTTP exception included, becomes a 500 with the caller's default message. |
| Invoices.HandleServiceError | backend/src/invoice/invoice.service.ts:59-67 | The corrected handler: an HTTP exception thrown inside the `try` reaches the caller unchanged. |
| Invoices.HandlersAgreeOnPrismaErrors | backend/src/invoice/invoice.service.ts:115-120 | On every ORM error the corrected handler and the original agree. A 404 comes out exactly for `P2025`. |
| Invoices.OwnedByMembers | backend/src/invoice/invoice.service.ts:55-58 | The files attached to an invoice by `include: { files: true }` are exactly the file rows that name it. |
| Invoices.KeptMembers | backend/src/invoice/invoice.service.ts:95 | After the file `deleteMany` for an invoice, the rows left are exactly the rows of the other invoices. |
| Invoices.NewFileRowsAt | backend/src/invoice/invoice.service.ts:24-26 | The nested `create: files` inserts one row per supplied file. Rows keep the supplied order and carry consecutive ids from the file counter. |
| Invoices.FileRefsOfNewRows | backend/src/invoice/invoice.service.ts:24-26 | The inserted rows give back exactly the supplied file references. |
| Invoices.OwnedByAppend | backend/src/invoice/invoice.service.ts:55-58 | An invoice's files in a concatenated table are its files in the first part followed by its files in the second. |
| Invoices.OwnedByAfterDelete | backend/src/invoice/invoice.service.ts:95 | Deleting an invoice's file rows empties its own list and leaves every other invoice's list as it was. |
| Invoices.OwnedByNewRows | backend/src/invoice/invoice.service.ts:24-26 | Inserted rows belong to the invoice they were created for and to no other. |
| Invoices.DeleteUnownedIsNoOp | backend/src/invoice/invoice.service.ts:95 | A `deleteMany` for an invoice that owns no row changes nothing. |
| Invoices.DeleteKeepsIdsIncreasing | backend/src/invoice/invoice.service.ts:95 | Deleting rows keeps the remaining file ids in increasing order. |
| Invoices.OwnedByMembersEverywhere | backend/src/invoice/invoice.service.ts:41-43 | For every invoice at once, its files are exactly the rows that name it. |
| Invoices.AppendOwnership | backend/src/invoice/invoice.service.ts:24-26 | Inserting files for one invoice appends them to its list and leaves every other list unchanged. |
| Invoices.DeleteOwnership | backend/src/invoice/invoice.service.ts:95 | After the delete the invoice owns no files, and every other invoice keeps its list. |
| Invoices.ApplyUpdateLaws | backend/src/invoice/invoice.service.ts:75-76 | The spread `...updateInvoiceDto` has three laws. The empty update changes nothing. Applying an update twice is applying it once. An update with every field present sets the columns whatever they were. |
| Invoices.ApplyUpdateFieldwise | backend/src/invoice/invoice.service.ts:73-81 | Each column is overwritten by a supplied field and kept when the field is absent. |
| Invoices.AddInvoiceValid | backend/src/invoice/invoice.service.ts:18-27 | The invoice counter is an unused id, and taking it keeps the tables valid. |
| Invoices.AppendRowsValid | backend/src/invoice/invoice.service.ts:24-26 | Inserting file rows for an existing invoice, with ids from the file counter, keeps the tables valid. It also keeps every file name and path non-empty. |
| Invoices.DeleteRowsValid | backend/src/invoice/invoice.service.ts:95-98 | Deleting an invoice's file rows keeps the tables valid, also once the invoice itself is gone. |
| Invoices.ReplaceFilesFacts | backend/src/invoice/invoice.service.ts:77-79 | When `files` is supplied, the empty list included, the invoice's files become exactly that list. When it is absent, the file table is unchanged. Other invoices keep their lists, and the tables stay valid. |
| Invoices.CreateFacts | backend/src/invoice/invoice.service.ts:18-29 | The new invoice gets an unused id and owns exactly the supplied files. Other invoices keep their lists, and the tables stay valid. |
| Invoices.MissingOwnsNothing | backend/src/invoice/invoice.service.ts:95 | An invoice that does not exist owns no file rows, so deleting its files changes nothing. |
| Invoices.RemoveFacts | backend/src/invoice/invoice.service.ts:95-98 | After `remove` the invoice owns no files and every other invoice keeps its list. When the id was missing, the file table is as it was. |
| Invoices.InvoiceService.Create | backend/src/invoice/invoice.service.ts:14-37 | Exactly one invoice is added, under an unused id, with the payload's columns, and the response is "Invoice created successfully" with it. Its files are the supplied list, or none when `files` is omitted. Every other invoice and its files are unchanged, and the invariant and the validated data are kept. |
| Invoices.InvoiceService.FindAll | backend/src/invoice/invoice.service.ts:39-51 | Every invoice is listed, and nothing else. Each is listed with its columns and with exactly the file rows that name it. |
| Invoices.InvoiceService.FindOne | backend/src/invoice/invoice.service.ts:53-69 | As written: an existing id yields the invoice with its files. A missing id yields a 500 "Error retrieving invoice". |
| Invoices.InvoiceService.FindOneRethrowing | backend/src/invoice/invoice.service.ts:53-69 | As intended: a missing id yields the 404 "Invoice not found". |
| Invoices.InvoiceService.Update | backend/src/invoice/invoice.service.ts:71-91 | A missing id yields a 404 and changes nothing. Otherwise supplied columns are overwritten and absent ones kept. A supplied `files` (`[]` too) deletes the invoice's file rows and appends the new ones under fresh ids, so its files become exactly that list; an absent one leaves the file table and counter untouched. Other invoices' files are unchanged, and the invariant and the validated data are kept. |
| Invoices.InvoiceService.Remove | backend/src/invoice/invoice.service.ts:93-106 | The invoice's files are deleted first, then the invoice, and the deleted row is returned. A missing id yields a 404 with both tables unchanged. Other invoices' files are unchanged, and the invariant is kept. |
| Invoices.FindOneMissingIsServerError | backend/src/invoice/invoice.service.ts:59-67 | For a missing id, `findOne` as written reports a 500, while the corrected version reports a 404. |
| Invoices.FindAllAgreesWithFindOne | backend/src/invoice/invoice.service.ts:39-69 | An id is listed by `findAll` exactly when `findOne` finds it, with the same invoice and files. |
| Invoices.EveryFileListedOnce | backend/src/invoice/invoice.service.ts:41-43 | In a valid store every file row is listed under exactly one invoice, the one it names, and that invoice is listed. |
| InvoiceDto.ToFileDto | backend/src/invoice/dto/create-invoice.dto.ts:35-43 | A validated file has a non-empty name and a non-empty path. |
| InvoiceDto.ToFiles | backend/src/invoice/dto/create-invoice.dto.ts:28-32 | A validated file list yields one well-formed file per element. |
| InvoiceDto.OptionalFiles | backend/src/invoice/dto/create-invoice.dto.ts:28-32 | `files` is present in the payload exactly when the body has it, and every file in it is well-formed. |
| InvoiceDto.ToCreateDto | backend/src/invoice/dto/create-invoice.dto.ts:11-33 | A validated create body gives non-empty name, number and status strings. It has files exactly when the body has them. |
| InvoiceDto.OptionalString | backend/src/invoice/dto/update-invoice.dto.ts:12-30 | An optional field is present exactly when its key is. |
| InvoiceDto.ToUpdateDto | backend/src/invoice/dto/update-invoice.dto.ts:12-37 | A validated update body gives a well-formed payload in which each field is present exactly when its key is. |
| InvoiceDto.CreateAmountIsAnyNumber | backend/src/invoice/dto/create-invoice.dto.ts:20-22 | Any number, zero and negatives included, is a valid `totalAmount`. A string, even a numeral, is not. |
| InvoiceDto.CreateFilesOptional | backend/src/invoice/dto/create-invoice.dto.ts:28-32 | Dropping `files`, or sending the empty array, keeps a valid body valid. |
| InvoiceDto.EmptyFileFieldRejected | backend/src/invoice/dto/create-invoice.dto.ts:35-43 | One file with an empty name or path makes both a create body and an update body invalid. |
| InvoiceDto.EmptyUpdateIsValid | backend/src/invoice/dto/update-invoice.dto.ts:12-37 | The empty body is a valid update and reads as the update that changes nothing. |
| InvoiceDto.UpdateAmountAndFilesUnconstrained | backend/src/invoice/dto/update-invoice.dto.ts:23-36 | In an update, any number is a valid `totalAmount`, and the empty array a valid `files`. |
| InvoiceDto.UpdateTextFieldsNonEmpty | backend/src/invoice/dto/update-invoice.dto.ts:13-30 | In an update, a present name, number or status that is "" makes the body invalid. |
| InvoiceDto.CreateBodyIsUpdateBody | backend/src/invoice/dto/update-invoice.dto.ts:12-37 | Every valid create body is a valid update body. Read as an update, it carries every field of the create payload. |
| FilterRoute.Get | frontend/src/app/api/filter/route.ts:9-11 | `searchParams.get` is absent exactly when no entry has the name. Otherwise it is the value of the first entry with that name. |
| FilterRoute.TrimStartKeepsBlankness | frontend/src/app/api/filter/route.ts:17 | Stripping leading whitespace keeps a string blank exactly when it was blank, and strips a blank string to "". |
| FilterRoute.TrimEndEmptyIffBlank | frontend/src/app/api/filter/route.ts:17 | Stripping trailing whitespace yields "" exactly for a blank string. |
| FilterRoute.TrimEmptyIffBlank | frontend/src/app/api/filter/route.ts:17 | `trim()` yields "" exactly for a string made only of ECMAScript whitespace and line terminators. |
| FilterRoute.Serialize | frontend/src/app/api/filter/route.ts:28 | The serialized query is empty exactly when there are no entries. |
| FilterRoute.SearchParams.constructor | frontend/src/app/api/filter/route.ts:14 | A new parameter list is empty. |
| FilterRoute.SearchParams.Append | frontend/src/app/api/filter/route.ts:18 | `append` adds the entry at the end and keeps the earlier entries. |
| FilterRoute.SearchParams.ToString | frontend/src/app/api/filter/route.ts:28 | `toString` is empty exactly when nothing was appended. |
| FilterRoute.ForwardedAsThree | frontend/src/app/api/filter/route.ts:17-25 | The forwarded list is the contribution of `paymentStatus`, then of `startDate`, then of `endDate`. |
| FilterRoute.ForwardedMembers | frontend/src/app/api/filter/route.ts:17-25 | A (name, value) pair is forwarded exactly when the request carries that parameter with that value and the value is not blank. The value is forwarded untrimmed. |
| FilterRoute.ForwardedInFixedOrder | frontend/src/app/api/filter/route.ts:17-25 | At most three parameters are forwarded, in the order paymentStatus, startDate, endDate, each name at most once. |
| FilterRoute.NothingForwardedIffAllBlank | frontend/src/app/api/filter/route.ts:17-25 | Nothing is forwarded exactly when each of the three parameters is absent or blank. |
| FilterRoute.FilterUrl | frontend/src/app/api/filter/route.ts:6-31 | The URL is `base + "/filter"` when nothing is forwarded. Otherwise it is `base + "/filter?"` followed by the serialized forwarded parameters. |

## Left out

- The ORM client itself is left out: query execution, transactions and database failures. Each service call is modelled as atomic.
- Database errors other than `P2025` are not modelled, because the only ORM error the service code distinguishes is `P2025`.
  - As a result `Create` and `FindAll` never fail in the model. Their 500 paths are covered by `HandlePrismaError` alone.
- The order of the nested writes in `update` is an assumption: the file `deleteMany` is taken to run before the file `create`. The code names both in one nested write, and only that order matches its comments.
- Invoices.InvoiceService.Create: the new invoice's files are returned in insertion (file id) order. The query's `include: { files: true }` has no `orderBy`, so the code promises no order; "exactly the supplied files" is an ordered equality under the order the model fixes.
- Invoices.InvoiceService.Update: a replaced file list is likewise returned in insertion (file id) order, which the code does not promise.
- Invoices.InvoiceService.FindAll: each invoice's files are listed in insertion (file id) order, which the code does not promise.
- Invoices.InvoiceService.FindAll: it returns a map keyed by id, so the order of the array that `findMany` returns is not modelled.
- `createSuccessResponse` is the `Response` datatype's constructor, not a member of its own, because it only pairs a message with data.
- The database schema is not part of this model. Columns the service never writes (a creation date, say) are left out.
- JSON input that is not modelled:
  - `null` is left out. It passes the validators of every optional field (`@IsOptional()` skips a field that is `null` or absent), and only the required create fields refuse it through `IsNotEmpty`. In `update`, `files: null` would act as an absent list. A `null` scalar field is passed to the ORM, which stores NULL for a nullable column or refuses it for a required one; the refusal carries no `P2025` code, so it gives a 500 with nothing changed. The database schema is not part of this model.
  - Non-integer numbers, `NaN` and `Infinity` are left out. `totalAmount` is an `int`, since no arithmetic is done on it.
  - Whitelisting of unknown keys and class-transformer's conversions are left out.
- Which keys of the body reach the database is not modelled; the typed payload keeps only the declared fields.
- The filtered listing is not part of this model. `findFilteredInvoices`, which the controller calls, is not in `invoice.service.ts`.
- `filter-invoice.dto.ts`, the controller, the module and the controller's date parsing are left out. They are routing and wiring, or JavaScript `Date` semantics.
- Parts of the frontend are left out:
  - the `fetch` and response half of the filter route;
  - the other proxy routes;
  - the React pages and components.
  - All of these are network I/O or UI state.
- Three inputs of the filter route are taken as parameters:
  - `NEXT_PUBLIC_API_BASE_URL`, as `apiBaseUrl`;
  - the request's query, already parsed into decoded (name, value) pairs;
  - `URLSearchParams` percent-encoding, as the function `encode`.
- FilterRoute.Serialize: its contract speaks only of emptiness, because the encoding is left abstract.

## Findings

| source | as written | input that shows it | evidently intended | confidence | as-written member | corrected member |
|---|---|---|---|---|---|---|
| backend/src/invoice/invoice.service.ts:59-67 | `findOne` throws `NotFoundException` inside its own `try`. The `catch` hands it to `handlePrismaError`, which finds no `code` `P2025` on it and throws `InternalServerErrorException('Error retrieving invoice')`. | `findOne(id)` for an id with no invoice | a 404 "Invoice not found", as the thrown exception says | not executed | Invoices.InvoiceService.FindOne (with Invoices.FindOneMissingIsServerError) | Invoices.InvoiceService.FindOneRethrowing (with Invoices.HandleServiceError) |
