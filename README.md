# Record communities coordinator and DCAT file export

This project models two small pieces of Invenio RDM Records in Dafny.

- **`RecordCommunitiesService`** is the batch coordinator for a record's communities.
  - `add` walks a batch of community references in order. For each one it runs the checks of `_include`: already a member, the community resolves, no open inclusion request, create and submit the request, then include it unless review is required.
  - Each caught exception becomes an error entry, and the loop goes on.
  - After the loop, `add` registers one index refresh on the unit of work.
  - `remove` deletes ids from the parent's membership list in place. It collects errors, and registers one parent commit and one record index only if some removal succeeded.
  - `search` builds the filter that restricts a community search to the record's current community ids.
- **`DcatSchema.get_files`** computes the `_files` field of the DCAT export. It gives one export entry per file entry, with a download URL under the site UI URL. The access URL is the DOI's HTTPS URL, and it is present only when the record has a DOI. The field is `missing` when files are disabled or when the list would be empty.

Modules:

- `Wrappers` (`wrappers.dfy`) holds `Option` and `Result`. `Failure` stands for a raised exception.
- `RecordCommunitiesSpec` (`record_communities_spec.dfy`) holds the pure specification:
  - `Include` models `_include`. It returns the outcome together with the log of collaborator calls it made, so the order of the checks can be stated.
  - `AddItem`, `AddOutcomes` and `AddSpec` give `add`'s per-item and whole-call results.
  - `RemoveOne` and `RemoveAll` give `remove`'s loop.
  - `CommunitiesFilter` gives the search filter and its meaning.
- `CommunitiesService` (`communities_service.dfy`) holds the imperative part:
  - `Parent` has a `communities` list that `remove` changes in place.
  - `UnitOfWork` has the list of registered operations.
  - The service's `Add`, `Remove` and `RemoveFromRecord` methods are loops and branches, each proved equal to the specification functions.
- `DcatSchema` (`dcat_schema.dfy`) holds:
  - the loop method `GetFiles`, proved equal to the function `Files`;
  - the properties of `Files`;
  - Python's `str` of an integer, with its round trip.

Every collaborator is a field of the `Collaborators` datatype: an oracle fixed for the duration of one call. This covers the permission policy, community resolution, the open-request search, request creation, and the inclusion workflow's `submit` and `include`. The permission policy only grants or denies. Every other collaborator step may raise any exception kind, and the except clauses of `add` decide by its kind whether it is caught, wherever it was raised. An exception that `add` does not catch (`Unhandled`, for example) ends the whole call with no operation registered.

`add` resolves the record and checks `add_community` once, before the loop (`service.py:124-125`), so a denial aborts the whole call. `remove` resolves the record before it validates the batch (`service.py:182-192`), while `add` validates first (`service.py:114-125`). The model keeps both orders.

## Model

| member | source | states |
|---|---|---|
| `RecordCommunitiesSpec.MakePayload` | invenio_rdm_records/services/communities/service.py:91 | the request data is an HTML payload carrying the comment, and it is empty exactly when the comment is empty |
| `RecordCommunitiesSpec.CommentOf` | invenio_rdm_records/services/communities/service.py:130 | the comment is the one given with the reference, and the empty one when none is given |
| `RecordCommunitiesSpec.RequiresReview` | invenio_rdm_records/services/communities/service.py:131 | review is required exactly when the reference asks for it explicitly; by default it is not |
| `RecordCommunitiesSpec.ExistingRequest` | invenio_rdm_records/services/communities/service.py:56-70 | `_exists` yields an id exactly when the search found a hit, and that id is the first hit's |
| `RecordCommunitiesSpec.OpenRequestId` | invenio_rdm_records/services/communities/service.py:82-84 | an open request blocks the inclusion exactly when the search found a hit whose id is non-empty (an empty id is falsy), and that request is the first hit |
| `RecordCommunitiesSpec.Include` | invenio_rdm_records/services/communities/service.py:72-109 | the calls made are a prefix of resolve, search, create, submit, include. A member is refused with `CommunityAlreadyExists` before any call. A community that does not resolve ends the attempt with the resolver's exception after that one call. A failed search ends it with the search's exception after two calls. An open request yields `OpenRequestAlreadyExists` with its id after only resolve and search. A request is created only when all checks pass. The include step happens only when no review is required, and a success made exactly 4 calls under review and 5 without |
| `RecordCommunitiesSpec.IncludeWorkflowOutcome` | invenio_rdm_records/services/communities/service.py:91-109 | the number of calls tells which workflow step ended the attempt. Three calls mean the creation failed, and its exception is the result. From four calls on, the created request was submitted to the resolved community with the same data. With four calls the result is the submission's outcome: its exception, or the submitted request under review. With five calls the submitted request was included, and the result is the include step's outcome |
| `RecordCommunitiesSpec.IncludeAfterChecks` | invenio_rdm_records/services/communities/service.py:92-103 | once the record is not yet a member, the community resolves and no open request blocks it, a request is created with the comment's payload. A failing creation ends the attempt with its own exception after three calls, and a failing submission ends it with its own exception after four |
| `RecordCommunitiesSpec.AddMessage` | invenio_rdm_records/services/communities/service.py:142-160 | the except clauses: exactly validation, missing-membership and unknown exceptions propagate, and an access-restriction error keeps its own message text |
| `RecordCommunitiesSpec.AddItem` | invenio_rdm_records/services/communities/service.py:129-160 | each reference yields an entry for its own id, or an exception no clause catches. A member always yields the "already included" error, and a success is never for a member |
| `RecordCommunitiesSpec.AddItemReportsInclude` | invenio_rdm_records/services/communities/service.py:136-160 | a reference's entry is what `_include` ended with. A success is added with the request id the workflow returned, and only a success is added. A failed entry carries the message of the exception caught. An uncaught exception propagates unchanged |
| `RecordCommunitiesSpec.AddOutcomes` | invenio_rdm_records/services/communities/service.py:127-160 | the batch yields entries exactly when no reference raises an uncaught exception. There is then one entry per reference, in input order, and the i-th is that reference's own outcome |
| `RecordCommunitiesSpec.AddOutcomesStep` | invenio_rdm_records/services/communities/service.py:128-160 | one more caught reference appends its own entry to those of the earlier references |
| `RecordCommunitiesSpec.AddOutcomesAbort` | invenio_rdm_records/services/communities/service.py:136-160 | the first reference whose exception is not caught ends the batch with that exception |
| `RecordCommunitiesSpec.AddOutcomesFailurePersists` | invenio_rdm_records/services/communities/service.py:127-160 | once the first references of a batch end in an uncaught exception, the whole batch ends in that exception, whatever follows |
| `RecordCommunitiesSpec.Successes` | invenio_rdm_records/services/communities/service.py:140-141 | the `success` list holds only added entries (with a request id) taken from the batch, and every added entry of the batch is in it |
| `RecordCommunitiesSpec.Errors` | invenio_rdm_records/services/communities/service.py:142-160 | the `errors` list holds only failed entries (with a message) taken from the batch, and every failed entry of the batch is in it |
| `RecordCommunitiesSpec.SplitStep` | invenio_rdm_records/services/communities/service.py:136-160 | one more entry is appended to the end of the list of its kind, and the other list is unchanged |
| `RecordCommunitiesSpec.SuccessesConcat` | invenio_rdm_records/services/communities/service.py:127-141 | the `success` list keeps the input order: the list of a batch is the list of its first part followed by the list of the rest |
| `RecordCommunitiesSpec.ErrorsConcat` | invenio_rdm_records/services/communities/service.py:127-160 | the `errors` list keeps the input order in the same way |
| `RecordCommunitiesSpec.PartitionCount` | invenio_rdm_records/services/communities/service.py:127-160 | the two lists together hold exactly the batch's entries, each as often as it occurs in the batch, so the two lengths add up to the batch length |
| `RecordCommunitiesSpec.AddSpec` | invenio_rdm_records/services/communities/service.py:111-164 | the size cap fails first, then an unknown record, then a single `add_community` denial. When a reference raises an exception that no clause catches, the call ends with that same exception. On a normal return every reference was caught, and the two lists are the batch's entries split by kind in input order, with the same entries as the batch counted with repetition. Each reference's own entry is in `success` iff it was added and in `errors` iff it failed, so `len(success) + len(errors)` is the number of references |
| `RecordCommunitiesSpec.AddSpecReports` | invenio_rdm_records/services/communities/service.py:127-164 | when every reference of an allowed batch was caught, `add` returns the `success` and `errors` lists of exactly those entries |
| `RecordCommunitiesSpec.OpenRequestIsReported` | invenio_rdm_records/services/communities/service.py:82-84 | when an open inclusion request exists for the pair (for example, one left by an earlier call), the reference gets the "open inclusion request" error after only resolve and search. No second request is created |
| `RecordCommunitiesSpec.UnknownCommunityIsReported` | invenio_rdm_records/services/communities/service.py:142-144 | a community id that does not resolve (`NoResultFound` or `PIDDoesNotExistError`) gets the "Community not found." error after only the resolve call |
| `RecordCommunitiesSpec.AccessRestrictionIsReported` | invenio_rdm_records/services/communities/service.py:155-157 | when the submission raises the inconsistent-access-restrictions error, the reference's error entry carries that error's own text |
| `RecordCommunitiesSpec.PermissionDeniedIsReported` | invenio_rdm_records/services/communities/service.py:158-160 | whenever `_include` ends in a permission denial, whichever step raised it, the reference gets a "Permission denied." error entry and the batch goes on |
| `RecordCommunitiesSpec.WorkflowDenialIsReported` | invenio_rdm_records/services/communities/service.py:92-103 | a permission denial raised by request creation, or by the submission of the created request, gives the reference a "Permission denied." error entry instead of aborting the batch |
| `RecordCommunitiesSpec.SuccessCarriesRequestId` | invenio_rdm_records/services/communities/service.py:100-109 | a successful reference is reported with the submitted request's id under review, and with the included request's id otherwise |
| `RecordCommunitiesSpec.IncludeOnlyWithoutReview` | invenio_rdm_records/services/communities/service.py:100-109 | once the request is submitted, the include call is made if and only if review is not required. The result is the submitted request under review, and the include step's result otherwise |
| `RecordCommunitiesSpec.Without` | invenio_rdm_records/services/communities/service.py:177 | taking an id out keeps every other id and drops that one. It keeps the list free of duplicates, removes exactly one element when the id was there, and changes nothing otherwise |
| `RecordCommunitiesSpec.RemoveOne` | invenio_rdm_records/services/communities/service.py:166-177 | one id of `remove`'s batch. A non-member adds one "does not belong" error and nothing else changes. A member the caller may not remove adds one "permission denied" error and nothing else changes. Otherwise exactly that id leaves the membership, no error is added and the change is recorded. The membership changes exactly when no error is added |
| `RecordCommunitiesSpec.RemoveAll` | invenio_rdm_records/services/communities/service.py:193-212 | `commit_changes` is set iff some requested community was a member that the caller may remove. Each id adds at most one error, so it is also set iff there are fewer errors than ids. New errors are "does not belong" or "permission denied" entries for ids in the batch. Exactly the requested members the caller may remove are gone, and all other members stay. The default community is cleared exactly when it is removed. The exact error list, id by id, is given by `RemoveAllStep` |
| `RecordCommunitiesSpec.RemoveAllStep` | invenio_rdm_records/services/communities/service.py:194-212 | the ids are handled one at a time in input order. Each one updates the membership, the default, the error list and `commit_changes` exactly as `RemoveOne` says, so the returned error list holds each failing id's entry in input order |
| `RecordCommunitiesSpec.RemoveNonMemberOnly` | invenio_rdm_records/services/communities/service.py:166-169 | removing only a non-member yields one "does not belong" error, leaves the membership unchanged and sets no commit |
| `RecordCommunitiesSpec.CommunitiesFilter` | invenio_rdm_records/services/communities/service.py:235-238 | a community passes the search filter iff its id is one of the record's community ids and any extra filter admits it |
| `CommunitiesService.Parent.Remove` | invenio_rdm_records/services/communities/service.py:176-177 | the membership list loses the id, the default community is cleared when it is that id, and the list stays duplicate-free |
| `CommunitiesService.RecordCommunitiesService.Add` | invenio_rdm_records/services/communities/service.py:111-164 | the result is `AddSpec` of the batch and the resolved record. On a normal return exactly one `IndexRefresh` is registered, and on any exception none is |
| `CommunitiesService.RecordCommunitiesService.RemoveFromRecord` | invenio_rdm_records/services/communities/service.py:166-177 | a non-member raises `RecordCommunityMissing` and nothing changes. The permission is asked only for a member: a denial raises `PermissionDenied` and nothing changes, and otherwise the id is removed |
| `CommunitiesService.RecordCommunitiesService.Remove` | invenio_rdm_records/services/communities/service.py:179-219 | an unknown record fails before validation. The new membership and default are those of `RemoveAll`, and only the error entries are returned. `CommitParent` and `IndexRecord` (with refresh) are registered once each iff some requested community was a member that the caller may remove, and nothing is registered otherwise |
| `CommunitiesService.RecordCommunitiesService.Search` | invenio_rdm_records/services/communities/service.py:221-247 | an unknown record fails first, then a `read` denial. Otherwise the filter admits exactly the record's member communities that the extra filter admits |
| `DcatSchema.NatToDecimal` | invenio_rdm_records/resources/serializers/dcat/schema.py:39 | the numeral is non-empty, all digits, has no leading zero, and is "0" only for zero |
| `DcatSchema.IntToDecimal` | invenio_rdm_records/resources/serializers/dcat/schema.py:39 | `str` of an integer starts with a minus sign exactly when the integer is negative |
| `DcatSchema.NatToDecimalRoundTrip` | invenio_rdm_records/resources/serializers/dcat/schema.py:39 | reading back the numeral of a natural number gives that number |
| `DcatSchema.IntToDecimalRoundTrip` | invenio_rdm_records/resources/serializers/dcat/schema.py:39 | reading back the `size` string gives the file's size, so the string determines it |
| `DcatSchema.DownloadUrlShape` | invenio_rdm_records/resources/serializers/dcat/schema.py:30 | the download URL starts with the site UI URL and ends with "/files/" and the file key, with "/records/" and the record id in between |
| `DcatSchema.AccessUrl` | invenio_rdm_records/resources/serializers/dcat/schema.py:31-35 | there is an access URL exactly when the record has a DOI, and it is the HTTPS URL of the DOI's identifier |
| `DcatSchema.ExportEntries` | invenio_rdm_records/resources/serializers/dcat/schema.py:29-44 | one export entry per file entry, in iteration order. `size` is `str` of the size, `key` is the value's `key`, and `download_url` is site + "/records/" + id + "/files/" + key. `access_url` is the DOI's URL, or none without a DOI |
| `DcatSchema.Files` | invenio_rdm_records/resources/serializers/dcat/schema.py:21-46 | disabled or unset files give `missing` whatever the entries are. Enabled files without entries raise. Otherwise the result is `missing` exactly when there are no entries, and else the export entries |
| `DcatSchema.GetFiles` | invenio_rdm_records/resources/serializers/dcat/schema.py:21-46 | the appending loop computes exactly `Files` |
| `DcatSchema.AccessUrlShared` | invenio_rdm_records/resources/serializers/dcat/schema.py:31-35 | all exported files carry the same access URL |
| `DcatSchema.ExportIgnoresDictionaryKeys` | invenio_rdm_records/resources/serializers/dcat/schema.py:29-43 | the dictionary keys play no part: entries with equal values export identically |
| `DcatSchema.SingleFileWithoutDoi` | invenio_rdm_records/resources/serializers/dcat/schema.py:21-46 | one enabled file `a.pdf` of 100 bytes and no DOI exports as `[{size: "100", access_url: none, download_url: <site>/records/<id>/files/a.pdf, key: "a.pdf"}]` |

## Left out

- Schema validation (`schema.load`) is modelled only by its size cap. The cap is taken to be inclusive: a batch of at most the configured maximum is valid. Field validation and the deduplication the schema may do are outside this model. Both `add` and `remove` start their `errors` list from the one `schema.load` returns (`service.py:114`, `service.py:184`). The model starts it empty: with `raise_errors=True` the load is assumed to raise on invalid data rather than return errors, a behaviour of the schema library that is not part of this model.
- `lazy_gettext` translation: messages are the `Message` kinds, and `MessageText` gives their untranslated English text.
- The collaborators' own effects are not modelled. This covers the operations that request creation and the inclusion workflow register on the unit of work, the membership change that an accepted inclusion makes, and when a new request becomes visible to the search. They are a fixed snapshot for one call. Within one batch, a second reference to the same community is judged against the same snapshot as the first. Request creation depends only on the community id and the payload, so two identical references in one batch receive the same request id.
- `search` returns the filter it builds. The community search it delegates to, and the `params`, `search_preference`, `expand` and keyword arguments passed through, are not modelled.
- The `unit_of_work` decorator's commit and rollback are not modelled. An exception leaves the registered-operations list as it was.
- The search-engine query DSL is not modelled: the open-request search is an oracle returning the hit ids, and its total is the number of hits.
- The caller identity is folded into the permission oracle and the other collaborators.
- There is no duplicate-request guard against concurrent callers: the check-then-act race is a concurrency concern and is not modelled.
- The `indexer` arguments of the registered operations are not modelled.
- The request-type lookup and the receiver resolution before request creation (`service.py:86-89`) are folded into `createRequest`. The call log therefore shows a `CreateRequest` call even where the code would have raised before making it.
- `idutils.to_url` and the `SITE_UI_URL` setting are parameters.
- The fields `DcatSchema` inherits from `DataCite43Schema` are not part of this model.
- Dictionary lookups that raise `KeyError` are not modelled: the record's `id`, `files` and `pids` are always present, and every file value has `key` and `size`. A present but non-boolean `enabled`, or an explicit null `comment` or `require_review`, is not modelled either.
- `tests/services/test_rdm_service.py` tests draft creation and embargo lifting against a live application. It is not part of this model.
