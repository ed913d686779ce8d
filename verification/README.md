# Verified model of the content-addressed provenance node

This project models the storage, identity and lineage layer of the node and proves what that layer promises. A node
keeps bytes under their SHA-256 digest, names them by `ni:` ids (section 3 of RFC 6920), describes directory trees by
manifests, indexes finished runs by data and by Order, expands and writes references between JSON documents, mints the
next Order from a finished run, promotes and collects durable Entity Relationship objects, cuts data into parts, builds
and checks execution BOMs, and signs documents with `eddsa-jcs-2022` (section 3.3 of Data Integrity EdDSA Cryptosuites
v1.0).

`dafny verify dfyconfig.toml` checks everything. There is one module per file:

| area | modules |
|---|---|
| bytes, numerals, strings, JSON | `Wrappers`, `Text`, `Numerals`, `Codec`, `Json`, `Sorting` |
| identifiers and references | `Multibase`, `DidKey`, `Digest`, `Hashlink`, `ContentRef`, `UrlRefs`, `Formats`, `CarriedRefs` |
| store, trees, verified reads | `Cas`, `DirWalk`, `Residue`, `Manifest`, `AddressStore` |
| indexes and intake | `Locators`, `Registry`, `Intake` |
| reference expansion | `FlattenRefs`, `FlattenLaw`, `InspectTree` |
| lineage | `Order`, `Creation`, `FunctionRebuild`, `FunctionChange`, `FunctionChain`, `CreatedRun`, `Lineage`, `StructurePairing`, `LinkGuard`, `LineageChain`, `Minting` |
| durable objects | `ErStore`, `ErBucket` |
| partitions | `Partition`, `PartitionLayout`, `PartitionBags` |
| provenance | `ExecutionBom`, `BomContents`, `BomChecks`, `BuilderMeetsChecks`, `DataIntegrity` |

## How things are modelled

- SHA-256, Ed25519, RFC 8785 canonicalization, the JSON and manifest codecs, `bind_subproc` and `structure_pairing` are
  function-valued parameters. What a theorem needs of them is a named hypothesis: `IsSha` (a digest is 64 hex digits),
  `NoCollision` and `Unforged` (no *other* bytes have the digest of these particular bytes), `Inverse` and `JsonCodec`
  (decoding undoes encoding), `IdealKey`, `Canonical`.
- HTTP peers are an arbitrary oracle that may answer anything, differently at each moment; the disk may change
  arbitrarily between two reads (`Peers`, `Timeline`). Directory listings come in any order.
- JSON objects are key-value sequences, since `json.dumps` keeps insertion order and content ids depend on it. In
  `DataIntegrity` they are maps, since RFC 8785 sorts keys.
- An exception is `Err`. Where the code tells exceptions apart (`_sae_lineage_entity` catches failed assertions only)
  the model does too.
- What the code edits in place is a class or a loop with mutable state (`CasHttpStore`, `BomRegistry`, `LocatorIndex`,
  `DurableBucket`, `Document`, `LinkAndPut`, `CreateAndPut` and the loops named below). Each is proved equal to a
  specification function, and the theorems are about that function.
- The laws of inspect trees and of lineage hold for any allowlist of nested stems (`Mesh.stems`); the source's is
  `FLAT_STEM_ORDER`.
- `Committing` says which keys fix a digest (`ni:`, hex, `hl:`, and URLs whose path, as the code parses it, is a CAS
  path) and `FixedDigest` which one. `CatBytes` guarantees that digest for reads of such keys, and `VerifiedMesh`, the
  hypothesis of the lineage theorems, is that guarantee for the node's `cat`; it says nothing of other keys.

## Where the code does less than it says

- Node init and the link operations agree on the prior run except for one request shape: `bom_solid_uri` is the empty
  string and no other BOM locator is given. There they agree if and only if no data field can name a run
  (`BlankSolidIff`, with a concrete request in `BlankSolidWitness`).
- `hl:` text round-trips if and only if the hint has no newline (`HlRoundTrip`).
- Part names sort numerically up to 100000 parts and no further (`NamesSortedIff`); beyond that a reader joins some byte
  strings in the wrong order (`BoundIsSharp`).
- Expansion leaves a reference if and only if it reaches a slot with no depth left, or with a URI of its own path, or
  with a stem ending in `_uri` and a non-blank string for payload, unless a later slot of the same object writes over it
  (`ExpansionExact`). Where no chain is long or cyclic only the third is left (`AcyclicExact`, with a document in
  `DoubleSuffixLeavesSlot`); `SameUriAgain` has the second on a graph of height two.
- A URL is checked against the digest in its path only when nothing follows that path: the code strips a reference
  before reading its digest, but not before fetching it (`UrlCheckedIff`, `TrailingSpaceUnchecked`).
- Partitioning drops files and directories whose names start with a dot (`NothingLostIff`, `DotEnvIsLost`).
- Proof verification compares contexts with Python equality, so `1` passes for `true` (`AcceptanceSet`,
  `NumberForBoolean`).
- Promotion does not look for objects; it keeps the invariant exactly when they are there (`PromoteKeepsIff`).
- A tree is materialized as it was if and only if no kept file has a backslash in its path (`TreeIntegrity`,
  `BackslashIsLost`).
- A Structure override may be a URL or a hashlink. A URL the node knows nothing about counts as a change: the pairing is
  accepted with a slot that cannot be read (`OverridesIff`, `UnknownUrlAccepted`).
- Residue pruning drops a whole directory whose name ends in `.pyc`, whose files a test on complete paths would keep
  (`PruningIsStronger`).
- A legacy `*_cid` field that holds a URL or `hl:` text is not carried unchanged by a link step; all other readable
  references are (`ReadStable`, `ReadsBackIff`).
- The comment on the lineage assertion says `linkProcess` mutates the Function. The code does not enforce it, unlike
  `linkStructure`: the Function id moves if and only if some replacement binds to another id than its slot already has,
  or the base URL is not the one that Function was written over (`FunctionMovedIff`). So without replacements it passes
  only by moving to another base URL (`NoReplacementsModes`), and created Orders have runs on which it does not
  (`CreatedUnchanged`).
- The payload check says it does not require a transform's output to equal its input. Without an input id it compares
  integration with ingress, and without ingress data with integration (`StageLineageIff`).

## Model

| member | source | states |
|---|---|---|
| Multibase.B58Encode | cats/network/identity/multibase.py:9-22 | the loop computes base-58 positional notation with one `1` per leading zero byte |
| Multibase.B58Decode | cats/network/identity/multibase.py:25-43 | the loop reads it back, and fails exactly on a character outside the alphabet |
| Multibase.AlphabetRuns | cats/network/identity/multibase.py:5 | the alphabet is the literal one |
| Multibase.DecodeEncode | cats/network/identity/multibase.py:9-43 | decoding an encoding gives back every byte string, leading zeros included |
| Multibase.EncodeDecode | cats/network/identity/multibase.py:9-43 | encoding a decoding gives back every string over the alphabet |
| Multibase.ZRoundTrip | cats/network/identity/multibase.py:46-55 | the multibase form round-trips |
| DidKey.KeySurvives | cats/network/identity/node_did.py:18-33 | every 32-byte key survives did:key, verificationMethod and back |
| DidKey.OneSpellingPerKey | cats/network/feedback/data_integrity.py:47-70 | whatever resolves to a key carries exactly the multibase text of its did:key |
| Digest.NiRoundTrip | cats/network/cas/digest.py:32-53 | printing and reading `ni:` are inverse on every 64-digit hex string |
| Digest.EqualityIdIff | cats/network/cas/content_ref.py:42-47 | two well-formed ids have one equality id iff they name the same 32 bytes, whatever the case or unused bits |
| Digest.EqualityIdIdempotent | cats/network/cas/content_ref.py:42-47 | the equality id is a fixed point |
| Digest.FsKeyAgreesWithNormalForm | cats/network/cas/digest.py:79-90 | file keys and canonical ids identify the same ids |
| Codec.B64RoundTrip | cats/network/cas/digest.py:32-53 | base64url of section 5 of RFC 4648 without padding round-trips |
| Hashlink.HlRoundTrip | cats/network/cas/hashlink.py:22-53 | reading a printed `hl:` gives the id and its hint, iff the hint has no newline |
| Hashlink.FromHlNames | cats/network/cas/hashlink.py:39-53 | what is read from any `hl:` is a canonical `ni:` |
| Formats.HexBits | cats/network/cas/digest.py:17-53 | the bits that hex spells, by the literal digits, are those of the bytes in order |
| Formats.B64Alphabet | cats/network/cas/digest.py:32-53 | the arithmetic digits are the literal alphabet of section 5 of RFC 4648 |
| Formats.B64Bits | cats/network/cas/digest.py:32-53 | the bits that unpadded base64url spells are those of the bytes in order, and less than a sextet of zeros |
| Formats.NiIs | cats/network/cas/digest.py:32-37 | a digest in any case prints as `ni:///sha-256;` and its base64url |
| Formats.HlIs | cats/network/cas/hashlink.py:22-36 | a hashlink is `hl:`, the base64url and the first of several hints that is not blank |
| Formats.DidKeyIs | cats/network/identity/node_did.py:18-33 | the did:key and verificationMethod texts of a key |
| Formats.CasUriIs | cats/network/cas/store.py:15-26 | a CAS locator is the base without trailing slashes, `/ldp/cas/` and the hex digest |
| ContentRef.CasUriRoundTrip | cats/network/cas/store.py:15-26 | a CAS locator for a digest, over a base URL without a path, reads back as its canonical `ni:` |
| ContentRef.RefRoundTrip | cats/network/cas/content_ref.py:163-248 | reading a written digest reference gives the canonical `ni:`; the legacy field is gone |
| ContentRef.OtherStemsUnchanged | cats/network/cas/content_ref.py:163-187 | for plain stems every other stem's reference is unchanged |
| ContentRef.SetRefFrame | cats/network/cas/content_ref.py:163-187 | only the stem's own two fields change |
| ContentRef.Document.Refer | cats/network/cas/content_ref.py:163-187 | the in-place edit is the specified one, with its frame, and errors change nothing |
| UrlRefs.LdpKeyIff | cats/network/cas/content_ref.py:98-122 | a path names a key iff it is that key in one of the four LDP stores |
| UrlRefs.UrlNames | cats/network/cas/content_ref.py:98-122 | such a URL names its key, canonically for a digest in any case, whatever scheme, host, query, fragment and locator index |
| UrlRefs.IndexDecides | cats/network/cas/content_ref.py:98-122 | any other URL names what the locator index lists it under, or nothing |
| UrlRefs.FieldsAre | cats/network/cas/content_ref.py:125-142 | the two fields of a stem, whether it is given bare, with `_uri` or with `_cid` |
| UrlRefs.WrittenIs | cats/network/cas/content_ref.py:163-187 | a given locator is written; without one, an id that is no digest is written itself |
| UrlRefs.LegacyDecides | cats/network/cas/content_ref.py:212-248 | without a locator the legacy field decides, without that a bare `content_id` of an object without a stem |
| UrlRefs.HashlinkDecides | cats/network/cas/content_ref.py:212-248 | a hashlink locator is its digest or no reference, whatever the other fields say |
| CarriedRefs.ReadStable | cats/network/cas/content_ref.py:203-248 | every readable id can be carried, except a URL or `hl:` text in a legacy field |
| CarriedRefs.ReadsBackIff | cats/network/cas/content_ref.py:145-248 | writing an id and reading it back gives the id iff it is canonical or opaque |
| CarriedRefs.IndexIsSound | cats/network/cas/locators.py:86-101 | ids found by the locator scan can be carried |
| Cas.CasHttpStore.Put | cats/network/cas/store.py:43-58 | stores under the digest, keeps every other blob, refuses a collision |
| Cas.PutThenGet | cats/network/cas/store.py:43-69 | what was put is what `get` returns, under any spelling of its id and after any later puts |
| DirWalk.WalkLoop | cats/network/cas/manifest.py:50-66 | the walk with `dirnames` pruned in place |
| DirWalk.WalkIsFilter | cats/network/cas/manifest.py:50-66 | pruning during the walk equals keeping the files none of whose path prefixes is ignored |
| DirWalk.WalkOnce | cats/network/cas/manifest.py:50-66 | no file is visited twice |
| Residue.KeptIffNoResidueName | cats/network/packaging.py:31-37 | a Structure file is kept iff no component of its path is a residue name |
| Residue.ResidueNameIff | cats/network/packaging.py:15-37 | the residue names, literally |
| Residue.PruningIsStronger | cats/network/packaging.py:31-37 | a directory named `*.pyc` is dropped though the paths of its files are not residue |
| Manifest.BuildManifestEntries | cats/network/cas/manifest.py:15-28 | later entries for a cleaned path win; an unsafe path fails the whole manifest |
| Manifest.BuildIff | cats/network/cas/manifest.py:15-28 | a manifest is built iff every cleaned path is non-empty without a `..` component and every id is a digest |
| Manifest.BuildHas | cats/network/cas/manifest.py:15-28 | it has exactly the cleaned paths, each with the id of its last entry |
| Manifest.CleanPathIs | cats/network/cas/manifest.py:15-28 | cleaning drops leading separators of either kind and turns the others into slashes |
| Manifest.SafePathsConfined | cats/network/cas/manifest.py:15-28 | an accepted path is relative and has no `..` component |
| Manifest.PutTree | cats/network/cas/manifest.py:40-69 | the returned id is of the manifest of the visited files, and all their blobs are stored; it fails only if the manifest does or other bytes lie under a digest |
| Manifest.ManifestIdIsOfKeptFiles | cats/network/cas/manifest.py:40-69 | the manifest id is a function of the map of kept files alone |
| Manifest.SameKeptSameId | cats/network/cas/manifest.py:40-69 | trees that agree on kept files have one id, whatever the walk order or residue |
| AddressStore.CasLocatorBytes | cats/network/address_store/store.py:70-88 | the answer of the first listed peer that answers, if it has the named digest; an error if it has another; nothing if none answers |
| AddressStore.CatHttp | cats/network/address_store/store.py:183-195 | the bytes of a URL are those of the local file or peer, compared with the expected digest, else with the one a local Invoice or Order file promises |
| AddressStore.LocalInvoice | cats/network/address_store/store.py:105-118 | `/ldp/invoices/<key>` reads the Invoice filed under the key, and succeeds if that has the digest `<key>` and no other is expected |
| AddressStore.LocalOrder | cats/network/address_store/store.py:119-132 | the same for `/ldp/orders/<key>` and the Order store |
| AddressStore.LocalCas | cats/network/address_store/store.py:90-104 | `/ldp/cas/<digest>` reads the blob of that digest |
| AddressStore.AskedOfPeer | cats/network/address_store/store.py:183-195 | what is not local is asked of the peer; it succeeds if no digest is expected or the answer has it |
| AddressStore.ExpectedIs | cats/network/address_store/store.py:146-162 | the expected digest: the caller's, else that of a CAS path, else that of the id the index lists the URL for |
| AddressStore.UrlCheckedIff | cats/network/address_store/store.py:146-196 | a URL served by peers is digest-checked iff the caller, a CAS path of the URL as given, or the locator index supplies a digest |
| AddressStore.TrailingSpaceUnchecked | cats/network/address_store/store.py:146-196 | a space after a CAS URL leaves its bytes unchecked, though the reference reader takes it for the digest |
| AddressStore.CatBytes | cats/network/address_store/store.py:164-208 | whatever disk, locators, hints and peers answer, `ni:`, hex, `hl:` and CAS-path reads return bytes of the named digest; local blobs, then the first hint or listed peer that answers, decide the outcome |
| AddressStore.MaterializeTree | cats/network/cas/manifest.py:72-94 | writes only what manifest entries commit to, at safe paths, or fails; does not fail while the tree is local |
| AddressStore.MaterializedIsOriginal | cats/network/cas/manifest.py:72-94 | what is materialized from the id of a file map is that map |
| AddressStore.TreeIntegrity | cats/network/cas/manifest.py:40-94 | what is materialized from a stored tree, at any later time, is exactly its kept files iff none of them has a backslash in its path |
| AddressStore.StoreThenMaterialize | cats/network/cas/manifest.py:40-94 | storing and then materializing fails, or gives the kept files iff none has a backslash in its path; then neither fails on a store that only grows, if every blob lay under its digest |
| AddressStore.StoredTreeStaysLocal | cats/network/cas/manifest.py:40-69 | a stored tree stays readable as long as the store only grows |
| AddressStore.BackslashIsLost | cats/network/cas/manifest.py:15-28 | a listing with a backslash path is never materialized as it was |
| AddressStore.Retrieve | cats/network/address_store/store.py:221-252 | `get` returns the committed blob, or the tree of the manifest id it settles on: of the hashlink, the index, the expected digest or the id itself; and when it succeeds |
| Locators.LocatorIndex.Put | cats/network/cas/locators.py:34-60 | head insertion under the canonical id, once per URI |
| Locators.PutThenLookup | cats/network/cas/locators.py:34-84 | a URI that was put is listed for every spelling of the id, in front if it is new, with the others behind it |
| Locators.IndexIsHistory | cats/network/cas/locators.py:34-60 | after any puts each document lists each URI once, exactly the registered ones |
| Locators.LookupIsHistory | cats/network/cas/locators.py:80-84 | the forward lookup, for any spelling of the id |
| Locators.FindIsHistory | cats/network/cas/locators.py:86-101 | the reverse scan finds a listing id, fails iff none lists the URI, and is the exact inverse for URIs of one id |
| Locators.LocatorIndex.FindContentIdForUri | cats/network/cas/locators.py:86-101 | the loop over the directory is the specified scan |
| Registry.BomRegistry.Put | cats/network/registry/store.py:322-366 | the three writes in order; it succeeds iff the record is usable, with the file key of its BOM id |
| Registry.UsableIff | cats/network/registry/store.py:39-60 | a record is usable iff its BOM, Order and data ids, new fields before legacy ones, can be filed |
| Registry.PutStores | cats/network/registry/store.py:322-366 | the stored record has the three canonical ids, no legacy field, and all other fields as they were |
| Registry.PutLists | cats/network/registry/store.py:311-366 | the BOM comes to the front of the list of its data id and of its Order id; all other lists stay |
| Registry.PutThenLookups | cats/network/registry/store.py:368-386 | afterwards its Order, its data list and its Order list are found under any spelling |
| Registry.IndexesAreHistory | cats/network/registry/store.py:311-366 | each reverse list is duplicate-free, newest first, of the ids put, also when puts stop early |
| Registry.LookupsAreHistory | cats/network/registry/store.py:380-386 | so are the lookups, for any spelling |
| Registry.UniqueIffSole | cats/network/registry/store.py:402-409 | unique resolution returns `b` iff `b` is the only one put |
| Registry.RePutRepairs | cats/network/registry/store.py:322-366 | putting again completes a put cut short anywhere and changes nothing after a full one |
| Registry.NeverDangling | cats/network/registry/store.py:322-366 | no reverse entry ever names a BOM without a record |
| Registry.PutThenLookupOrder | cats/network/registry/store.py:374-378 | after its first write a BOM answers with the canonical Order id |
| Intake.IntakeAgreement | cats/node/app.py:58-168 | node init returns Order `o` iff the link side selects a BOM with order `o`; both refuse ambiguity; with a BOM locator neither looks at the data fields |
| Intake.OrderUriIs | cats/node/app.py:98-100 | an `order_uri` is the Order: a hashlink or digest in canonical form, a URL as what it is known as, nothing else |
| Intake.FirstFieldDecides | cats/node/app.py:102-133 | both sides look only at the first field that is given |
| Intake.PutThenInit | cats/node/app.py:58-168 | a run that was put is found by its BOM id and, as the only run of its data, by its data id |
| Intake.RefusalsAre | cats/node/app.py:102-168 | 404 for an unknown BOM or data, 409 for several runs, 400 for ids that cannot be filed or none |
| Intake.BlankSolidIff | cats/network/order.py:66-158 | in the excepted shape the two agree in every registry history and locator index iff no data field of the request can resolve to an id that can be filed |
| Intake.BlankSolidWitness | cats/node/app.py:58-168 | a concrete request on which the two disagree after one ordinary put |
| FlattenRefs.FlattenLoop | cats/network/cas/flatten_refs.py:34-103 | the loops compute the expansion, with every fetch on record |
| FlattenRefs.FetchesBounded | cats/network/cas/flatten_refs.py:11-103 | no URI twice on one expansion path, no path deeper than `max_depth`, on any graph |
| FlattenLaw.FetchesAreAll | cats/network/cas/flatten_refs.py:11-103 | the expansion depends on no fetch but the recorded ones |
| FlattenLaw.NothingToExpand | cats/network/cas/flatten_refs.py:34-103 | a document without allowed references comes back as it is, list and key order included |
| FlattenLaw.SourceLaw | cats/network/cas/flatten_refs.py:34-103 | there is a value at a path of the result exactly where the stored and fetched documents have one on the path they lead to, of the same kind, and scalars are equal |
| FlattenLaw.FieldLaw | cats/network/cas/flatten_refs.py:60-103 | which field of the result comes from where: expanded stems replace their `_uri` and `_cid` fields, spent slots keep the URI, all others stay |
| FlattenRefs.HeightIsAcyclic | cats/network/cas/flatten_refs.py:34-103 | where a URI denotes one document, bounded reference chains rule out cycles |
| FlattenRefs.ExpansionExact | cats/network/cas/flatten_refs.py:34-103 | for every fetch, depth, visited set and allowlist: no allowed reference is left iff every reached slot has depth left, a URI off its path, no string payload under a `_uri` stem and nothing left below, or is written over by a later slot |
| FlattenRefs.AcyclicExact | cats/network/cas/flatten_refs.py:34-103 | without long or cyclic chains: no reference is left iff no reached slot with a stem ending in `_uri` has a non-blank string payload; a larger `max_depth` gives the same |
| FlattenRefs.ExpansionComplete | cats/network/cas/flatten_refs.py:34-103 | the same on graphs of height at most `max_depth` when a URI denotes one document |
| FlattenRefs.PlainSettles | cats/network/cas/flatten_refs.py:60-103 | without keys ending in `_uri_uri` nothing is left |
| FlattenRefs.SameUriAgain | cats/network/cas/flatten_refs.py:60-103 | a fetch that depends on the stem can leave a reference at height two |
| FlattenRefs.DoubleSuffixLeavesSlot | cats/network/cas/flatten_refs.py:60-103 | a `_uri_uri` key with a string payload leaves a reference |
| InspectTree.InspectLoop | cats/network/content_mesh.py:341-372 | the loop over the allowlist computes the inspect tree |
| InspectTree.ErasureLaw | cats/network/content_mesh.py:341-372 | at every depth, a node without `flat` is the stored document its path refers to |
| InspectTree.NestedIff | cats/network/content_mesh.py:341-372 | exactly which references are nested |
| InspectTree.KeyIs | cats/network/content_mesh.py:341-372 | a reference is read by its trimmed locator, if it has one |
| Lineage.PriorIsStored | cats/network/order.py:39-49 | what the link operations look at is the stored Invoice and Order of the run |
| Lineage.LinkLaw | cats/network/order.py:331-646 | every link step carries the data id, refers to the new Invoice, and carries the Function or Structure it does not replace |
| Lineage.LinkFrame | cats/network/order.py:348-373 | all other fields but the endpoint, the stripped eBOM stems and a requested path are those of the stored prior Order |
| Lineage.LinkFields | cats/network/order.py:355-373 | the endpoint and a requested path are set; no inspect bag and no stale eBOM reference remains |
| LinkGuard.LinkIff | cats/network/order.py:402-646 | a link step succeeds iff it asks for something, the Invoice has a data id, and the prior Order has what the step carries and what it changes |
| LinkGuard.RebuildIff | cats/network/order.py:184-260 | a Function is rebuilt iff both sources have an id and so has every slot that is not replaced |
| FunctionChange.NewFunctionLaw | cats/network/order.py:184-260 | a step that rebuilds puts a Function the new Order refers to: each replacement bound to its own source in its own slot, all else as in the stored prior Function |
| StructurePairing.NewStructureLaw | cats/network/order.py:262-329 | a step with overrides puts a pairing the new Order refers to: each override reads back from its own slot, every other slot as in the stored prior Structure |
| Lineage.StructureMoves | cats/network/order.py:459-531 | a step that asks for another Structure changes its id, or fails |
| Lineage.OrderIsProcess | cats/network/order.py:533-646 | `linkOrder` with Function arguments only puts and mints what `linkProcess` does, iff the prior Function reads |
| Lineage.OrderIsStructure | cats/network/order.py:533-646 | `linkOrder` with Structure arguments only puts and mints what `linkStructure` does, iff the prior Structure reads |
| Lineage.ReadIsWritten | cats/network/address_store/store.py:164-208 | a verified read of a reference yields the one document its id names |
| StructurePairing.OverridesIff | cats/network/order.py:262-329 | whatever text the overrides are, they succeed iff none is a malformed digest and some slot then reads as another id; those slots are set and no others |
| StructurePairing.FilepathIff | cats/network/order.py:295-329 | the same for a mutation from a directory, over the ids its pairing has, if they can be read |
| StructurePairing.RespellingFails | cats/network/order.py:315-328 | overrides that read back as the canonical ids already there are refused |
| StructurePairing.SpellingsReadBack | cats/network/cas/content_ref.py:163-248 | `ni:`, hex, a hashlink and a CAS URL over any base read back as the same canonical id |
| StructurePairing.UnknownUrlAccepted | cats/network/order.py:315-329 | an override by a URL the node does not know succeeds and leaves a slot that cannot be read |
| FunctionRebuild.FillSlotsReads | cats/network/order.py:210-246 | filling slots sets each to its replacement or prior id and leaves other stems alone |
| FunctionRebuild.PartsRead | cats/network/order.py:199-246 | every replacement is bound to its own source, every other slot and both sources are the prior ones |
| FunctionRebuild.RebuildLaw | cats/network/order.py:248-260 | the new Function refers to those parts and keeps both sources |
| LineageChain.RanWhatWasMinted | cats/network/order.py:331-400 | the Order a later run refers to is the minted document |
| LineageChain.ChainGood | cats/network/order.py:331-400 | the invariant that every Order of a chain satisfies |
| LineageChain.ChainData | cats/network/registry/lineage.py:76-94 | along every chain the next input data id is the prior output data id |
| LineageChain.StructureCarried | cats/network/order.py:402-457 | over any stretch of steps that carry Structure its id stays |
| LineageChain.FunctionCarried | cats/network/order.py:459-531 | over any stretch of steps that carry Function its id stays |
| LineageChain.StructureChanged | cats/network/order.py:459-531 | every step that asks for a Structure changes it |
| LineageChain.DataChainIff | cats/network/registry/lineage.py:76-94 | the data assertion accepts iff the Invoice names its data without the locator index |
| LineageChain.PairingIff | cats/network/registry/lineage.py:50-73 | for a step from an Order that was created or linked, the pairing assertion accepts exactly the modes that say what happened |
| LineageChain.StructureModes | cats/network/registry/lineage.py:50-73 | `linkStructure` always passes as (carried, mutated); the Structure id moves iff a Structure is asked for |
| FunctionChange.FunctionMoves | cats/network/order.py:184-260 | if some replacement binds to another id than its slot has, the Function id changes |
| FunctionChange.FunctionStays | cats/network/order.py:184-260 | if every replacement binds to the id its slot has and the prior Function was created or rebuilt over the same base URL, the id stays |
| FunctionChange.BaseMoves | cats/network/order.py:184-260 | over another base URL the Function id changes whatever the replacements are |
| Creation.CreatesIff | cats/network/order.py:648-760 | a creation succeeds iff the directory has a Structure pairing whose ids can be written |
| Creation.CreatedReads | cats/network/order.py:698-760 | the created Order refers to the Function, Structure and Invoice put with it, the Invoice to the data directory, and a chain can start from it |
| Creation.CreatedSlots | cats/network/order.py:698-736 | the created Process and InfraFunction refer, slot by slot, to each given callable bound to its own source |
| Creation.CreatedFields | cats/network/order.py:737-760 | the name of the Structure directory, the job home and the endpoint |
| Creation.CreatedPairingIds | cats/network/order.py:648-697 | the created Structure reads as the pairing of its directory does |
| Creation.CreatedMakes | cats/network/order.py:698-736 | the first Function is made by the recipe that rebuilds follow |
| FunctionChain.RanWhatWasCreated | cats/network/order.py:698-760 | a run of a created Order read back the very document that was put, referring to the created Function |
| FunctionChain.NewMoves | cats/network/order.py:402-457 | along a chain, a replacement that binds to another id moves the Function wherever it came from |
| FunctionChain.FunctionMovedIff | cats/network/order.py:402-457 | from a created Order or any rebuild on, a rebuild moves the Function id iff some replacement binds to another id than its slot has or the base URL is not the one that Function was written over |
| FunctionChain.FunctionModes | cats/network/registry/lineage.py:50-73 | and the assertion accepts (mutated, carried) under exactly that condition |
| FunctionChain.NoReplacementsModes | cats/network/registry/lineage.py:50-73 | `linkProcess` without replacements moves the Function, and passes as (mutated, carried), iff the base URL changed |
| CreatedRun.CreatedRelinks | cats/network/order.py:402-457 | every created Order whose pairing has its nested references only has, barring collisions, a run held by a store with nothing but its documents, from which `linkProcess` without replacements succeeds |
| CreatedRun.CreatedUnchanged | cats/network/order.py:402-457 | there it keeps the Function id, and the assertion refuses the new Order as (mutated, carried) |
| Minting.FillSlotsLoop | cats/network/order.py:211-246 | the slot loop fills and puts what is specified |
| Minting.OrderRequestFromPrior | cats/network/order.py:331-381 | the Invoice and the edited Order are put as specified |
| Minting.CreateAndPut | cats/network/order.py:648-760 | the pairing, leaves, Function, Invoice and Order of a creation are put as specified; when the specification succeeds it fails only on a collision |
| Minting.LinkAndPut | cats/network/order.py:402-646 | each link operation does what its specification says, with every document in the store; when the specification succeeds it fails only on a collision |
| ErBucket.DurableBucket.WriteErObjects | data/input/structure/infrastructure/obj_store_utils.py:488-511 | one state per object; afterwards each file's last bytes lie under its key and every other key is as before; the URI returned; a bad name changes nothing |
| ErBucket.DurableBucket.PromoteErPointer | data/input/structure/infrastructure/obj_store_utils.py:514-527 | one state: the pointer to the URI, structure id and name is written under `er/current/` and returned |
| ErBucket.DurableBucket.GcErPrefixes | data/input/structure/infrastructure/obj_store_utils.py:643-692 | the bucket goes through the specified states and returns the candidates; a targeted call removes exactly the keys of that structure and, when forced, its pointers, or is refused iff a pointer names it and it is not forced |
| ErStore.RunSafe | data/input/structure/infrastructure/obj_store_utils.py:488-692 | after every put and delete of every run, each pointer that resolves has its objects |
| ErStore.EmptyBucketInv | data/input/structure/infrastructure/obj_store_utils.py:488-692 | an empty bucket satisfies the invariant, so runs have a start |
| ErStore.WrittenFirstIsDisciplined | data/input/structure/infrastructure/obj_store_utils.py:488-527 | runs that promote only what was written since the last deleting collection are covered |
| ErStore.SweepInBetween | data/input/structure/infrastructure/obj_store_utils.py:643-692 | write, sweep, promote is not |
| ErStore.TargetedKeeps | data/input/structure/infrastructure/obj_store_utils.py:655-677 | so within targeted and forced collection |
| ErStore.SweepExact | data/input/structure/infrastructure/obj_store_utils.py:643-692 | a sweep leaves exactly the referenced structures; a second finds nothing; a dry run lists the same |
| ErStore.PointerProtects | data/input/structure/infrastructure/obj_store_utils.py:530-692 | what a pointer names, in its new or old field, no sweep removes and no unforced targeted call accepts |
| ErStore.OtherStructuresUntouched | data/input/structure/infrastructure/obj_store_utils.py:605-632 | deleting one structure id touches no other, even one that extends it |
| ErStore.PromoteKeepsIff | data/input/structure/infrastructure/obj_store_utils.py:514-527 | promotion keeps the invariant iff the objects are there |
| Partition.SplitFileBytes | data/input/structure/plant/partition_layout.py:57-73 | part `i` starts at `i*base + min(i, rem)` and ends where the next starts |
| Partition.SplitIsLossless | data/input/structure/plant/partition_layout.py:57-73 | parts join to the original and differ in size by at most one |
| Partition.NamesSortedIff | data/input/structure/plant/partition_layout.py:18-22 | part names sort numerically iff there are at most 100000 |
| PartitionLayout.BytesRoundTrip | data/input/structure/plant/partition_layout.py:48-73 | write, list in any order, sort, join: the original bytes, up to that bound |
| PartitionLayout.ListedIff | data/input/structure/plant/partition_layout.py:48-54 | a reader lists the part names that are not CARs and no other file |
| Formats.PartNameIs | data/input/structure/plant/partition_layout.py:18-22 | a part name is `part-` and the decimal digits of the index, padded to five |
| PartitionLayout.BoundIsSharp | data/input/structure/plant/partition_layout.py:48-73 | past it some bytes come back in the wrong order |
| PartitionBags.DealtPositions | data/input/structure/plant/partition_layout.py:76-83 | sorted element `i` is at place `i / n` of bag `i % n`; bag sizes differ by at most one |
| PartitionBags.DealtInterleaves | data/input/structure/plant/partition_layout.py:76-83 | interleaving the bags gives back the sorted list |
| PartitionBags.BagsPartitionFiles | data/input/structure/plant/partition_layout.py:100-116 | every file is in exactly one shard tree, unchanged |
| PartitionBags.VisibleAre | data/input/structure/plant/partition_layout.py:86-97 | a file is collected iff no component of its path starts with a dot |
| PartitionBags.NothingLostIff | data/input/structure/plant/partition_layout.py:86-97 | the collected files are all files iff none lies on such a path |
| PartitionBags.DotEnvIsLost | data/input/structure/plant/partition_layout.py:86-97 | a `.env` beside two tables is lost |
| PartitionBags.PartitionIngress | data/input/structure/plant/ray_io_utils.py:55-92 | for every input the layout holds exactly the collected files: one is cut, any other number is dealt, every `n`-th in path order, with a marker in empty shards |
| ExecutionBom.BuildExecutionBom | cats/network/feedback/envelope.py:80-192 | the appended lists and filled document are the specified BOM |
| BomContents.BomIff | cats/network/feedback/envelope.py:80-192 | a BOM is built iff no id that needs a locator is a malformed digest |
| BomContents.BomIs | cats/network/feedback/envelope.py:80-192 | the locators it shows, given ones first, what the run used, and its stages with what each was derived from |
| BomContents.BomAttributed | cats/network/feedback/envelope.py:148-150 | the node is named in both fields, or in none |
| BomContents.ManifestsEquivalentIff | cats/network/cas/manifest_equiv.py:14-51 | two fetched manifests are equivalent iff they have the same entries, in any key order |
| BomContents.UnfetchedEquivalentIff | cats/network/cas/manifest_equiv.py:26-51 | without payloads only equal URIs are |
| BomChecks.UsedEntities | cats/network/registry/execution_bind.py:34-63 | returns the entities of `prov:used`, iff all have an `@id` |
| BomChecks.AssertExecutionBind | cats/network/registry/execution_bind.py:106-157 | passes iff the first two entities agree with the URIs and their payloads |
| BomChecks.SaeEntityIs | cats/network/registry/as_executed.py:62-101 | the entity returned is the last that agrees and is not derived |
| BomChecks.AssertAsExecutedBind | cats/network/registry/as_executed.py:104-133 | as specified, with its fetched payload |
| BomChecks.AssertStageLineage | cats/network/cas/manifest_equiv.py:54-108 | the loop over `prev_uri` and `payload_index` decides whether the hops hold |
| BuilderMeetsChecks.StageLineageIff | cats/network/cas/manifest_equiv.py:54-108 | builder output passes iff its first stage with a source is the same URI or manifest as that source |
| BuilderMeetsChecks.BomNamesItsRun | cats/network/feedback/envelope.py:137-147 | read as references, the BOM names the Invoice and the log it was built for |
| BuilderMeetsChecks.ExecutionBindIff | cats/network/feedback/envelope.py:117-130 | builder output passes the bind iff an Order was given and the URIs and payloads denote Order then Invoice |
| BuilderMeetsChecks.DigestBindIff | cats/network/registry/execution_bind.py:66-78 | for digests with any HTTP locators, exactly the URIs with the token of that Order and then that Invoice, by digest or locator |
| BuilderMeetsChecks.DefaultBindIff | cats/network/registry/execution_bind.py:16-25 | with default locators, exactly the spellings of the two digests |
| BuilderMeetsChecks.OwnBindPasses | cats/network/registry/execution_bind.py:106-157 | it passes against the locators and ids it was built from |
| BuilderMeetsChecks.AsExecutedPasses | cats/network/registry/as_executed.py:104-133 | the as-executed bind finds the as-executed entity itself, also among equal ids |
| BuilderMeetsChecks.TokenOfPath | cats/network/registry/execution_bind.py:16-25 | URLs that end in one key have one token |
| DataIntegrity.SignedVerifies | cats/network/feedback/data_integrity.py:82-147 | every signed document verifies |
| DataIntegrity.SignedIs | cats/network/feedback/data_integrity.py:73-110 | what is signed, options digest before document digest, and every member of the proof |
| DataIntegrity.AcceptanceSet | cats/network/feedback/data_integrity.py:112-147 | a document with this signature verifies iff its proof is the one made and the rest equals the signed document up to a `@context` that starts with items equal in Python's sense |
| DataIntegrity.NumberForBoolean | cats/network/feedback/data_integrity.py:31-44 | a document signed with `true` in its context also verifies with `1` there |

## Left out

- Flask routes, LDP, Solid, WAC and LDN clients, Kubo, Terraform, Ray, Docker, notebooks, logging and timestamps:
  services and plumbing outside the modelled logic.
- SPDX, CycloneDX, DCAT and SysML builders, `project_record`, slot-presence assertions: fixed-shape dictionaries.
- Link operations with eBOM stems switched on (`attach_ebom_stems`): the eBOM documents themselves are not modelled.
- The LDP copies and locators registered after a mint, and the BOM envelope read after a prior run is selected.
- Registration of `hl:` hints while an intake value is resolved: the locator index is constant during one resolution.
- `structure_pairing` is a function from a directory to a pairing or an error, and the ids of the directories that
  `create_order_request` puts are its arguments; all those trees are those of `PutTree`.
- The byte stores of `CasHttpStore`, `BomRegistry`, `LocatorIndex` and the bucket are maps; file encodings, torn single
  writes, symbolic links and file-directory clashes while materializing are not modelled.
- A put that stops early is modelled between the registry's writes, not inside one.
- Promotion that runs concurrently with a sweep: operations of a bucket run one after another, though each of their
  single puts and deletes is visible.
- Python `lower()` outside ASCII, JSON floats and duplicate keys, and the IPv6 and NFKC checks of `urlparse`.
- FlattenRefs.ExpansionExact: the fetch function is total; an exception in a fetch ends the expansion in the source.
- Minting.LinkAndPut: an error's text is not specified, only when there is one.
- Legacy `.car` layouts, and legacy request keys, which both intake sides refuse.
