# FamilyTreeLibrary template engine, in Dafny

This project models the template engine of FamilyTreeLibrary, which turns a
family chronicle into template lines and back.

- **Generation.** `TemplateGenerator` reads an outline text whose headers ("I: ", "B. ", "12. ", "c. ", "(3) ", "ii) ") name a member, the dates and an in-law.
  - It decomposes every header into a `TemplateLine`: a `HierarchialCoordinate`, a member `Person`, an optional in-law `Person` and a `FamilyDynamic`.
  - It walks the headers in pre-order, generation by generation, with a stack of queues of `Content`.
  - It lays the lines out on pages.
- **Reading.** `TemplateReader` cuts every page of such a template into bracketed records and reads each record back into a line. The persons of every line are made canonical through a pool of persons (`FamilyTreeUtils.GetPerson`).
- **Value types.** `Person`, `FamilyDynamic`, `TemplateLine`, `Content`, `Template`, `InheritedFamilyName` and `FamilyTreeNode` are modelled with their constructors, accessors, equality, ordering, hashing and text forms. So are the required-attribute validators of `DataUtils` and `FamilyTreeUtils`.

Modules, one per file:

- `Wrappers`: results and the exceptions thrown.
- `Strings`: the .NET string operations used.
- `Bridge`: `BridgeInstance` and documents.
- `Coordinates`: `HierarchialCoordinate`.
- `DataUtils` and `FamilyTreeUtils`.
- `Persons`, `FamilyDynamics`, `TemplateLines`, `Contents`, `Templates`, `InheritedFamilyNames` and `FamilyTreeNodes`.
- `PersonPools`: the `ISet<Person>` and `GetPerson`.
- `Guids`: the identifiers `Guid.NewGuid()` draws.
- `Headers`: header shapes, `GetHeaderDecomposition` and `BuildHeader`.
- `Pagination`: the layout of `WriteTemplate`.
- `Generator`: `GetContents`, `GetFamily` and the `TemplateGenerator` class.
- `Reader`: `GetPageLines`, `GetLine` and the `TemplateReader` class.

The persons, family dynamics, family tree nodes, pool and generator are classes whose methods update their fields. The string and header logic is functions with lemmas. Each loop of the source is a method proved against a function:

- the page layout;
- the bracket scan and record cut of `GetPageLines`;
- the slot loop of `GetLine`;
- the match queue of `GetContents`;
- the stack walk of `GetFamily`;
- the record loops of `ReadTemplate`.

Exceptions are `Err` results that name the exception and its message.

## Model

| member | source | states |
|---|---|---|
| Bridge.DateOf | server/FamilyTreeLibrary/Models/Person.cs:41-51 | a stored instance holds a date exactly when it is a string |
| Bridge.InstanceOf | server/FamilyTreeLibrary/Models/Person.cs:41-51 | a date setter stores an empty instance exactly for null |
| Bridge.DateOfInstanceOf | server/FamilyTreeLibrary/Models/Person.cs:41-63 | storing a date through the setter and reading it through the getter gives the same date, null included |
| Bridge.AsString | server/FamilyTreeLibrary/Data/Models/InheritedFamilyName.cs:9 | `AsString` succeeds exactly on a string instance and returns its text |
| Bridge.WithId | server/FamilyTreeLibrary/Models/Person.cs:18-22 | the constructor keeps every given attribute, always ends with an "id", and writes the drawn id only when there was none |
| Coordinates.Child | server/FamilyTreeLibrary/Service/TemplateGenerator.cs:204 | the first child coordinate extends the parent by one index equal to 1 |
| Coordinates.Sibling | server/FamilyTreeLibrary/Service/TemplateGenerator.cs:179 | the next sibling keeps the parent path and adds one to the last index |
| Coordinates.SiblingNShape | server/FamilyTreeLibrary/Service/TemplateGenerator.cs:161-179 | after k sibling steps the coordinate keeps its parent path and its last index grew by k |
| Coordinates.ChildSiblings | server/FamilyTreeLibrary/Service/TemplateGenerator.cs:204 | the children of a node are numbered 1, 2, ... directly below it |
| Coordinates.Labels | server/FamilyTreeLibrary/Service/TemplateReader.cs:106 | one decimal label per index, in order |
| Coordinates.ParseLabels | server/FamilyTreeLibrary/Service/TemplateReader.cs:106 | a successful `Convert.ToInt32` over the labels yields one index per label |
| Coordinates.ParseLabelsEach | server/FamilyTreeLibrary/Service/TemplateReader.cs:106 | the parse succeeds exactly when every label parses, and then holds each label's value at its place |
| Coordinates.ParseLabelsFirstFailure | server/FamilyTreeLibrary/Service/TemplateReader.cs:106 | a failed parse throws the exception of the first label that does not parse |
| Coordinates.ParseDotted | server/FamilyTreeLibrary/Service/TemplateReader.cs:106 | parsing the dotted text of a non-empty coordinate of 32-bit indices, negative ones included, gives the coordinate back |
| Coordinates.DottedIsNumeric | server/FamilyTreeLibrary/Service/TemplateReader.cs:93 | a dotted coordinate holds only digits, minus signs and dots, so no split character of the reader |
| DataUtils.ValidateRequiredAttribute | server/FamilyTreeLibrary/Data/DataUtils.cs:49-55 | passes exactly when the attribute is present, else throws naming that attribute |
| DataUtils.ValidateRequiredAttributes | server/FamilyTreeLibrary/Data/DataUtils.cs:57-64 | passes exactly when every required attribute is present, else throws naming exactly the missing ones |
| DataUtils.NoRequirementsPass | server/FamilyTreeLibrary/Data/DataUtils.cs:57-64 | an empty requirement always passes |
| DataUtils.RequiredAttributesEach | server/FamilyTreeLibrary/Data/DataUtils.cs:49-64 | the whole-set check passes exactly when each single-attribute check passes |
| FamilyTreeUtils.ValidateExtendedAttributeAccessibility | server/FamilyTreeLibrary/FamilyTreeUtils.cs:22-28 | throws `InvalidAttributeException` exactly when the attribute equals a required one under the current culture's ignore-case comparison |
| FamilyTreeUtils.RequiredRefusedInAnyCase | server/FamilyTreeLibrary/FamilyTreeUtils.cs:22-28 | any text the culture's comparison equates with a required attribute is refused |
| FamilyTreeUtils.AcceptedIsNotRequired | server/FamilyTreeLibrary/FamilyTreeUtils.cs:22-28 | whatever the culture, an attribute the guard accepts is none of the required ones |
| Persons.HashKeyOf | server/FamilyTreeLibrary/Models/Person.cs:125-138 | the hash exists exactly when both date keys and a string name are there; it carries the name, and it is the name alone exactly when both dates are null |
| Persons.HashFailureOf | server/FamilyTreeLibrary/Models/Person.cs:125-138 | the hash throws exactly the exception of the first missing key in the getters' order |
| Persons.HashKeyDeterminesFields | server/FamilyTreeLibrary/Models/Person.cs:125-138 | two persons hash alike exactly when name, birth date and deceased date agree |
| Persons.CompareFieldsAntisymmetric | server/FamilyTreeLibrary/Models/Person.cs:85-108 | swapping the operands negates the comparison |
| Persons.CompareFieldsZero | server/FamilyTreeLibrary/Models/Person.cs:85-108 | with a total date order, two persons compare equal exactly when their names and dates agree |
| Persons.Person.FromDocument | server/FamilyTreeLibrary/Models/Person.cs:18 | the person keeps the given document |
| Persons.Person.Create | server/FamilyTreeLibrary/Models/Person.cs:12-23 | throws exactly when there is no "id" and none may be generated; otherwise a fresh person over the document with the drawn id added only if missing |
| Persons.Person.Copy | server/FamilyTreeLibrary/Models/Person.cs:110-113 | a fresh person over the same document |
| Persons.Person.SetBirthDate | server/FamilyTreeLibrary/Models/Person.cs:41-51 | only the birth date changes, and reading it back gives the value set |
| Persons.Person.SetDeceasedDate | server/FamilyTreeLibrary/Models/Person.cs:53-63 | only the deceased date changes, and reading it back gives the value set |
| Persons.Person.Set | server/FamilyTreeLibrary/Models/Person.cs:65-76 | refuses a required attribute in any case and leaves the document; otherwise writes exactly that key |
| Persons.Person.CompareTo | server/FamilyTreeLibrary/Models/Person.cs:85-108 | every person follows null; two hashable persons compare as their birth dates, then deceased dates, then names decide; an earlier birth date gives -1; a missing birth date throws `KeyNotFoundException` |
| Persons.CompareToAntisymmetric | server/FamilyTreeLibrary/Models/Person.cs:85-108 | every person follows null, and two hashable persons compare without throwing, in opposite directions each way round |
| Persons.ExtendedAttributeKeepsFields | server/FamilyTreeLibrary/Models/Person.cs:65-76 | writing any attribute the indexer accepts leaves hash, order and text unchanged |
| FamilyDynamics.HashKeyOf | server/FamilyTreeLibrary/Models/FamilyDynamic.cs:92-95 | the hash exists exactly when a string start date and a string page title are there |
| FamilyDynamics.HashKeyIgnoresOthers | server/FamilyTreeLibrary/Models/FamilyDynamic.cs:92-95 | no attribute other than the start date and title, the id included, changes the hash |
| FamilyDynamics.HashKeyDeterminesDateAndTitle | server/FamilyTreeLibrary/Models/FamilyDynamic.cs:92-95 | two dynamics hash alike exactly when start date and title agree |
| FamilyDynamics.FamilyDynamic.FromDocument | server/FamilyTreeLibrary/Models/FamilyDynamic.cs:18 | the dynamic keeps the given document |
| FamilyDynamics.FamilyDynamic.Create | server/FamilyTreeLibrary/Models/FamilyDynamic.cs:11-22 | throws exactly when there is no "id" and none may be generated; otherwise a fresh dynamic with the drawn id added only if missing |
| FamilyDynamics.FamilyDynamic.Copy | server/FamilyTreeLibrary/Models/FamilyDynamic.cs:77-80 | a fresh dynamic over the same document |
| FamilyDynamics.FamilyDynamic.Set | server/FamilyTreeLibrary/Models/FamilyDynamic.cs:48-59 | refuses the required attributes in any case; otherwise writes exactly that key |
| FamilyDynamics.StartDateOf | server/FamilyTreeLibrary/Models/FamilyDynamic.cs:32-38 | the start date exactly when a string is stored under the key, with that text; `KeyNotFoundException` without the key |
| FamilyDynamics.FamilyDynamic.CompareTo | server/FamilyTreeLibrary/Models/FamilyDynamic.cs:68-75 | 1 for null without reading any start date; otherwise the date comparison of the two start dates, or the exception of this dynamic's start-date getter, then the other's |
| FamilyDynamics.CompareToAntisymmetric | server/FamilyTreeLibrary/Models/FamilyDynamic.cs:68-75 | every dynamic follows null; two dynamics compare without throwing both ways round or neither way, and then in opposite directions when the date comparison is antisymmetric; the text is the stored start date |
| FamilyTreeNodes.Restrict | server/FamilyTreeLibrary/Models/FamilyTreeNode.cs:11-17 | keeps exactly the schema's keys of the map, with their values |
| FamilyTreeNodes.ListInheritedFamilyNames | server/FamilyTreeLibrary/Models/FamilyTreeNode.cs:159-162 | the text of every family name, in order |
| FamilyTreeNodes.TypedVertex | server/FamilyTreeLibrary/Models/FamilyTreeNode.cs:19-47 | the typed constructors store the id, the family names' texts, the member and dynamic ids, and an in-law id exactly when given |
| FamilyTreeNodes.ParseNames | server/FamilyTreeLibrary/Models/FamilyTreeNode.cs:58-68 | the getter parses every stored text as written, the first failure throwing; on success a set of at most one name per text, each with a non-negative 32-bit id and a hyphen-free name |
| FamilyTreeNodes.ParseListedNames | server/FamilyTreeLibrary/Models/FamilyTreeNode.cs:58-73 | names without a hyphen and with non-negative 32-bit ids, listed by the setter, read back as the set of those names |
| FamilyTreeNodes.ListedHyphenatedNameLost | server/FamilyTreeLibrary/Models/FamilyTreeNode.cs:58-73 | a list holding a hyphenated name never reads back as the set of its names |
| FamilyTreeNodes.EqualNamesCollapse | server/FamilyTreeLibrary/Models/FamilyTreeNode.cs:58-68 | "Smith-7" and "Smith-07" read back as one name, which the hash set keeps once |
| FamilyTreeNodes.TrimEndChar | server/FamilyTreeLibrary/Models/FamilyTreeNode.cs:148-157 | `TrimEnd(';')` leaves a prefix not ending in ';', and everything it removes is ';' |
| FamilyTreeNodes.RenderInLawPart | server/FamilyTreeLibrary/Models/FamilyTreeNode.cs:148-157 | the text has the " In-Law Id: I;" part exactly when there is an in-law id, between member and dynamic parts |
| FamilyTreeNodes.FamilyTreeNode.ToString | server/FamilyTreeLibrary/Models/FamilyTreeNode.cs:148-157 | for ids stored in the form `Guid.Parse` accepts and prints back unchanged, the text exists exactly when the family names getter does not throw |
| FamilyTreeNodes.FamilyTreeNode.FromVertex | server/FamilyTreeLibrary/Models/FamilyTreeNode.cs:11-17 | the node keeps the given vertex |
| FamilyTreeNodes.FamilyTreeNode.Create | server/FamilyTreeLibrary/Models/FamilyTreeNode.cs:11-17 | throws naming exactly the missing required attributes; otherwise keeps exactly the schema's entries |
| FamilyTreeNodes.FamilyTreeNode.Typed | server/FamilyTreeLibrary/Models/FamilyTreeNode.cs:19-47 | the vertex `TypedVertex` describes |
| FamilyTreeNodes.FamilyTreeNode.Copy | server/FamilyTreeLibrary/Models/FamilyTreeNode.cs:125-128 | a copy succeeds exactly when the required attributes are there and keeps the schema's entries |
| FamilyTreeNodes.FamilyTreeNode.SetInLawId | server/FamilyTreeLibrary/Models/FamilyTreeNode.cs:84-106 | writes the key for a value, removes it for null, and the getter reads back the value |
| FamilyTreeNodes.FamilyTreeNode.SetInheritedFamilyNames | server/FamilyTreeLibrary/Models/FamilyTreeNode.cs:69-72 | stores the names' texts; the getter reads back their set when no name has a hyphen and every id is a non-negative 32-bit value, and never when a name has a hyphen |
| FamilyTreeNodes.EqualsEquivalence | server/FamilyTreeLibrary/Models/FamilyTreeNode.cs:129-136 | node equality is reflexive, symmetric and transitive, false against null, and ignores the node id and family names |
| Contents.Copy | server/FamilyTreeLibrary/Data/Models/Content.cs:15-18 | the copy equals the original |
| Contents.EqualsProperties | server/FamilyTreeLibrary/Data/Models/Content.cs:20-48 | `!=` negates `==`; a copy is `==`; `==` is header `==` and equal text, and is symmetric |
| Contents.ToStringParts | server/FamilyTreeLibrary/Data/Models/Content.cs:35-38 | the text exists exactly when the header has a start date; it then starts with "Header: " and the header's text and ends with the sub-content; otherwise it throws the header's exception |
| Contents.JoinAsWritten | server/FamilyTreeLibrary/Service/TemplateGenerator.cs:194 | `string.Join('\n', collection)` over contents succeeds exactly when every content's header has a start date |
| Contents.JoinFirstFailure | server/FamilyTreeLibrary/Service/TemplateGenerator.cs:194 | the join throws the exception of the first content whose header has no start date |
| Templates.RenderLines | server/FamilyTreeLibrary/Data/Models/Template.cs:19 | one text per line, in order |
| Templates.RenderAllAsWritten | server/FamilyTreeLibrary/Data/Models/Template.cs:19 | on success, one text per line |
| Templates.RenderAllAsWrittenAgrees | server/FamilyTreeLibrary/Data/Models/Template.cs:19 | the texts exist exactly when every line has a start date, and are then the corrected texts |
| Templates.RenderAllAsWrittenEach | server/FamilyTreeLibrary/Data/Models/Template.cs:19 | lines that each render to a text give those texts, in order |
| Templates.RenderAllAsWrittenFirstError | server/FamilyTreeLibrary/Data/Models/Template.cs:19 | the exception is that of the first line whose text throws |
| Templates.RenderAllAsWrittenFirstFailure | server/FamilyTreeLibrary/Data/Models/Template.cs:19 | the exception is that of the first line without a start date |
| Templates.ToStringAgrees | server/FamilyTreeLibrary/Data/Models/Template.cs:17-20 | the as-written text exists exactly when every line has a start date, and is then the corrected text; otherwise it throws the first such line's exception |
| Templates.EmptyFamily | server/FamilyTreeLibrary/Data/Models/Template.cs:17-20 | an empty family renders, as written and corrected, as the heading and family name, then a newline |
| Templates.AppendLine | server/FamilyTreeLibrary/Data/Models/Template.cs:17-20 | one more line appends a newline and that line's text to the corrected text; the as-written text exists exactly when it did before and the line has a start date, and then grows the same way |
| Templates.SingleLine | server/FamilyTreeLibrary/Data/Models/Template.cs:17-20 | a one-line family renders as the heading line followed by that line, or throws as the line's text does |
| TemplateLines.NeIsNotEq | server/FamilyTreeLibrary/Data/Models/TemplateLine.cs:60-92 | the branch-by-branch `!=` is the negation of `==`; two nulls are equal; null differs from any line |
| TemplateLines.EqualsEquivalence | server/FamilyTreeLibrary/Data/Models/TemplateLine.cs:31-34 | line equality is an equivalence when person and dynamic equality are |
| TemplateLines.Copy | server/FamilyTreeLibrary/Data/Models/TemplateLine.cs:26-29 | the copy has the same four parts |
| TemplateLines.CopyEquals | server/FamilyTreeLibrary/Data/Models/TemplateLine.cs:26-34 | a copy is `==` to the original |
| TemplateLines.RenderAsWrittenAgrees | server/FamilyTreeLibrary/Data/Models/TemplateLine.cs:46-58 | the as-written `ToString` succeeds exactly for a dynamic with a start date, and then equals the corrected `Render`; otherwise `NullReferenceException` without a dynamic, `KeyNotFoundException` without the key, and `InvalidOperationException` for a start date that is not a string |
| InheritedFamilyNames.ParseAsWritten | server/FamilyTreeLibrary/Data/Models/InheritedFamilyName.cs:7-13 | a parsed id is a non-negative 32-bit value and the parsed name holds no hyphen |
| InheritedFamilyNames.LastIndexOf | server/FamilyTreeLibrary/Data/Models/InheritedFamilyName.cs:10 | the position of the last occurrence of the character, or none when it does not occur |
| InheritedFamilyNames.Parse | server/FamilyTreeLibrary/Data/Models/InheritedFamilyName.cs:7-13 | a parsed id is never negative |
| InheritedFamilyNames.ParseInstance | server/FamilyTreeLibrary/Data/Models/InheritedFamilyName.cs:7-51 | parsing the instance of any name with a non-negative 32-bit id gives it back, hyphens included |
| InheritedFamilyNames.ParseAsWrittenInstance | server/FamilyTreeLibrary/Data/Models/InheritedFamilyName.cs:7-51 | the as-written parse round-trips for names without a hyphen |
| InheritedFamilyNames.ParseAsWrittenDigits | server/FamilyTreeLibrary/Data/Models/InheritedFamilyName.cs:7-13 | a hyphen-free name, a hyphen and decimal digits read as that name and the digits' value, leading zeros included |
| InheritedFamilyNames.ParseWordFails | server/FamilyTreeLibrary/Data/Models/InheritedFamilyName.cs:12 | `Convert.ToInt32` of a capitalised word throws `FormatException` |
| InheritedFamilyNames.ParseAsWrittenLosesHyphenatedName | server/FamilyTreeLibrary/Data/Models/InheritedFamilyName.cs:7-13 | the as-written parse of "Smith-Jones-7" throws `FormatException` |
| InheritedFamilyNames.EqualsIsFieldEquality | server/FamilyTreeLibrary/Data/Models/InheritedFamilyName.cs:53-81 | for non-negative 32-bit ids, `==` holds exactly when name and id agree, and `!=` is its negation |
| InheritedFamilyNames.NegativeIdsCollide | server/FamilyTreeLibrary/Data/Models/InheritedFamilyName.cs:53-56 | with a negative id, two different names have one text and so are `==` |
| Guids.GuidSource.constructor | server/FamilyTreeLibrary/Models/Person.cs:21 | no identifier drawn yet |
| Guids.GuidSource.NewGuid | server/FamilyTreeLibrary/Models/Person.cs:21 | each call returns the next identifier of the source |
| PersonPools.FindIndex | server/FamilyTreeLibrary/FamilyTreeUtils.cs:38-39 | the first pooled person that matches, or none when none does |
| PersonPools.ResolveKeepsDistinct | server/FamilyTreeLibrary/FamilyTreeUtils.cs:30-40 | the canonical person is pooled and matches the given one; the pool grew by at most one person at the end and holds no duplicates |
| PersonPools.ResolveIdempotent | server/FamilyTreeLibrary/FamilyTreeUtils.cs:30-40 | a second equal person gives the same canonical person and leaves the pool unchanged |
| PersonPools.PersonPool.constructor | server/FamilyTreeLibrary/Service/TemplateReader.cs:17 | an empty pool with no duplicates |
| PersonPools.PersonPool.Documents | server/FamilyTreeLibrary/FamilyTreeUtils.cs:30-40 | the pooled persons' documents, position by position |
| PersonPools.PersonPool.GetPerson | server/FamilyTreeLibrary/FamilyTreeUtils.cs:30-40 | on a hash failure, throws and leaves the pool. Otherwise adds the person when no equal one is pooled and returns it; else returns the pooled equal one and leaves the pool. No duplicates either way, and the pool grows by at most the returned person |
| PersonPools.GrewByThen | server/FamilyTreeLibrary/FamilyTreeUtils.cs:30-40 | a pool that grows by some persons and then by others has grown by all of them, in that order |
| PersonPools.PersonPool.FirstByName | server/FamilyTreeLibrary/Service/TemplateGenerator.cs:239 | the pooled person with the name that was added first, no earlier one having it; or none when no pooled person has it |
| PersonPools.DocumentsOf | server/FamilyTreeLibrary/FamilyTreeUtils.cs:30-40 | one document per person, in order |
| PersonPools.FirstByNameIn | server/FamilyTreeLibrary/Service/TemplateGenerator.cs:239 | the first person with the name among the given ones, none before it having it; or none when none has it |
| Headers.LabelDeterminesGeneration | server/FamilyTreeLibrary/Service/TemplateGenerator.cs:292-313 | no text is the label of two generations, and only generations 1 to 6 have labels |
| Headers.DecomposeFails | server/FamilyTreeLibrary/Service/TemplateGenerator.cs:209-290 | decomposition fails exactly when there is no member name or a bad date arrangement, with the source's two exceptions; the pool never decides failure |
| Headers.NoNamedGroupsFail | server/FamilyTreeLibrary/Service/TemplateGenerator.cs:303-311 | a match without named groups, as past generation six, throws `KeyNotFoundException` |
| Headers.DecomposeShape | server/FamilyTreeLibrary/Service/TemplateGenerator.cs:226-289 | only named non-empty slots remain; the member name is kept; a deceased date only beside a birth date; a start date only with an in-law or with all three dates |
| Headers.DecomposeTwoDates | server/FamilyTreeLibrary/Service/TemplateGenerator.cs:241-261 | two dates become birth and deceased dates, dropping the in-law, exactly when there is no in-law or the pooled namesake died on the second date; otherwise they stay |
| Headers.DecomposeOneDate | server/FamilyTreeLibrary/Service/TemplateGenerator.cs:262-276 | one date becomes the start date exactly when there is an in-law and the pooled namesake was not born on it; otherwise it stays the birth date |
| Headers.DecomposeNoneOrAll | server/FamilyTreeLibrary/Service/TemplateGenerator.cs:277-284 | with no date or all three the cleaned captures stay as they are |
| Headers.PoolOnlyMattersWithInLaw | server/FamilyTreeLibrary/Service/TemplateGenerator.cs:239-276 | without an in-law the pooled persons do not affect the decomposition |
| Headers.OneDateNoInLawHasNoStart | server/FamilyTreeLibrary/Service/TemplateGenerator.cs:262-276 | "I: John Smith 1900" decomposes to a name and birth date and no start date |
| Headers.GetHeaderDecomposition | server/FamilyTreeLibrary/Service/TemplateGenerator.cs:209-290 | the loop removing empty captures, then the date rewriting, equals `Decompose` given the namesake added to the pool first |
| Headers.FilledPersonIs | server/FamilyTreeLibrary/Service/TemplateGenerator.cs:111-127 | a document filled slot by slot is the person document of those slots |
| Headers.FillDocuments | server/FamilyTreeLibrary/Service/TemplateGenerator.cs:111-127 | the slot loop fills the member, in-law and dynamic documents from exactly their decomposed slots, empty instances elsewhere |
| Headers.PersonDocumentFields | server/FamilyTreeLibrary/Service/TemplateGenerator.cs:111-127 | a filled person document hashes and has the decomposed name and dates |
| Headers.DynamicDocumentFacts | server/FamilyTreeLibrary/Service/TemplateGenerator.cs:139-152 | the created dynamic has a start date exactly when one was decomposed, and has the title |
| Headers.CanonicalPerson | server/FamilyTreeLibrary/Service/TemplateGenerator.cs:132-138 | the returned person is pooled and has the filled document's name and dates; the pool grows by at most the new person |
| Headers.PeopleOf | server/FamilyTreeLibrary/Service/TemplateGenerator.cs:128-138 | a pooled member with the decomposed fields, and a pooled in-law exactly when an in-law name was decomposed; the pool grows by at most those two |
| Headers.DynamicOf | server/FamilyTreeLibrary/Service/TemplateGenerator.cs:139-152 | a fresh dynamic with the decomposed start date exactly when there was one, titled after the member and in-law |
| Headers.LineOf | server/FamilyTreeLibrary/Service/TemplateGenerator.cs:111-154 | the line at the coordinate holds what `HeaderLine` promises; its persons are pooled, the pool grows by at most them, and its dynamic is fresh |
| Headers.BuildHeader | server/FamilyTreeLibrary/Service/TemplateGenerator.cs:106-155 | fails exactly for a header that is not well formed, with the decomposition's exception, and leaves the pool. Otherwise the line of the decomposition, with pooled persons, the pool grown by at most them, and a member named as captured |
| Headers.DecomposeRecovered | server/FamilyTreeLibrary/Service/TemplateGenerator.cs:239-276 | the pooled namesake only decides whether a start date is kept, so a decomposition equals the one for no namesake when it has a start date, and the one for a namesake with the captured dates otherwise |
| Headers.BuiltIsDecomposition | server/FamilyTreeLibrary/Service/TemplateGenerator.cs:106-155 | a line built from a header is the line of that header's decomposition for some pooled namesake |
| Headers.KeepsStartForAny | server/FamilyTreeLibrary/Service/TemplateGenerator.cs:241-276 | a header that keeps its start date for the namesake that could take it away keeps it for every pooled namesake, and for none |
| Headers.LineWithoutStart | server/FamilyTreeLibrary/Service/TemplateGenerator.cs:106-155 | a built line without a start date comes from a header that does not keep its start date |
| Headers.LineWithStart | server/FamilyTreeLibrary/Service/TemplateGenerator.cs:106-155 | a built line with a start date comes from a header that has one when no namesake is pooled |
| Pagination.LayoutStep | server/FamilyTreeLibrary/Service/TemplateGenerator.cs:87-98 | one more line adds its break when needed and then its paragraph; the height resets at a break and grows by 36 |
| Pagination.WriteLines | server/FamilyTreeLibrary/Service/TemplateGenerator.cs:84-98 | the loop writes exactly the layout of the lines' as-written texts, or throws the exception of the first line whose text throws |
| Pagination.ParagraphsAppend | server/FamilyTreeLibrary/Service/TemplateGenerator.cs:87-98 | the paragraphs of two event runs are those of each, in order |
| Pagination.LayoutWritesEveryLine | server/FamilyTreeLibrary/Service/TemplateGenerator.cs:87-98 | every line is written exactly once, as a paragraph, in order |
| Pagination.HeightBounds | server/FamilyTreeLibrary/Service/TemplateGenerator.cs:84-97 | the height is a positive multiple of 36, never exceeds a page that fits one line, and is 36 right after a break |
| Pagination.FirstLineBreaks | server/FamilyTreeLibrary/Service/TemplateGenerator.cs:86-94 | the first line breaks exactly when the page cannot hold one line |
| Generator.SubContent | server/FamilyTreeLibrary/Service/TemplateGenerator.cs:172-176 | the sub-content lies after the match and before the next match or the end, or is empty |
| Generator.NodesOf | server/FamilyTreeLibrary/Service/TemplateGenerator.cs:161-179 | one node per match, at successive siblings, with its sub-content |
| Generator.SizeOfTail | server/FamilyTreeLibrary/Service/TemplateGenerator.cs:172-176 | the sub-contents from any match on fit in the text after it |
| Generator.SizeOfNodes | server/FamilyTreeLibrary/Service/TemplateGenerator.cs:172-176 | a text's nodes and sub-contents fit in the text, so the traversal terminates |
| Generator.ExpandContains | server/FamilyTreeLibrary/Service/TemplateGenerator.cs:192-205 | every node of a queue is among the headers it expands to |
| Generator.GetContents | server/FamilyTreeLibrary/Service/TemplateGenerator.cs:157-182 | succeeds exactly when every match decomposes; then one content per match, each built from the node at its sibling coordinate |
| Generator.BuiltExtends | server/FamilyTreeLibrary/Service/TemplateGenerator.cs:178 | a content built from the next node extends the contents built so far |
| Generator.AppendContent | server/FamilyTreeLibrary/Service/TemplateGenerator.cs:167-180 | one turn succeeds exactly when the dequeued match decomposes, and appends its content, keeping the earlier ones |
| Generator.NextContent | server/FamilyTreeLibrary/Service/TemplateGenerator.cs:169-178 | the content of the dequeued match: its line and the text up to the next match; it fails exactly when the match does not decompose |
| Generator.GetFamily | server/FamilyTreeLibrary/Service/TemplateGenerator.cs:184-208 | succeeds when every header of the pre-order decomposes and keeps a start date whatever namesake is pooled, and only when every header decomposes and has a start date with none pooled: each popped queue is formatted for the log at line 194, and a header without a start date throws there (reading `Line.ToString` as `TemplateLine.ToString`). Then one line per header, in pre-order, each with a start date and the line of its header's decomposition for some pooled namesake (`Headers.BuiltIsDecomposition`): at its coordinate, with the decomposed persons and dynamic |
| Generator.FirstStacked | server/FamilyTreeLibrary/Service/TemplateGenerator.cs:191 | the first generation's contents start the stack with their nodes |
| Generator.WrittenInOrder | server/FamilyTreeLibrary/Service/TemplateGenerator.cs:194-199 | lines built along the whole pre-order have one line per header, in order, each with a start date; every header decomposed and has a start date when no namesake is pooled |
| Generator.Walk | server/FamilyTreeLibrary/Service/TemplateGenerator.cs:192-206 | the stack loop writes the pre-order's lines in order, each with a start date, or fails only when a header of the pre-order does not decompose or does not keep its start date |
| Generator.Visit | server/FamilyTreeLibrary/Service/TemplateGenerator.cs:192-205 | one turn formats the popped queue for the log and throws when one of its headers has no start date (reading `Line.ToString` as `TemplateLine.ToString`), which only a header of the pre-order that does not keep its start date can cause; otherwise it keeps the written lines and the stack on the pre-order and leaves less work pending |
| Generator.UnkeptQueued | server/FamilyTreeLibrary/Service/TemplateGenerator.cs:192-194 | a header without a start date in the popped queue comes from a header of the pre-order that does not keep its start date |
| Generator.WriteHead | server/FamilyTreeLibrary/Service/TemplateGenerator.cs:195-205 | writing the head, pushing the queue's rest and then the children keeps the walk on the pre-order with less work |
| Generator.HeadWritten | server/FamilyTreeLibrary/Service/TemplateGenerator.cs:195-205 | after the head is written, the children are in the pre-order, pending first, and less work is left |
| Generator.GetChildren | server/FamilyTreeLibrary/Service/TemplateGenerator.cs:204 | the children go on the stack with their nodes, or a header of the pre-order does not decompose |
| Generator.PendingPush | server/FamilyTreeLibrary/Service/TemplateGenerator.cs:202-204 | a pushed queue's expansion comes before the rest of the stack |
| Generator.StackSizeDrop | server/FamilyTreeLibrary/Service/TemplateGenerator.cs:192-195 | an empty queue adds no work |
| Generator.PopFacts | server/FamilyTreeLibrary/Service/TemplateGenerator.cs:192 | what the stack keeps holds for the popped queue and for the stack below |
| Generator.PushFacts | server/FamilyTreeLibrary/Service/TemplateGenerator.cs:202-204 | a pushed queue whose contents were built from its nodes keeps the stack invariant |
| Generator.RestStacked | server/FamilyTreeLibrary/Service/TemplateGenerator.cs:202 | the rest of the popped queue goes back with its nodes |
| Generator.ChildrenStacked | server/FamilyTreeLibrary/Service/TemplateGenerator.cs:204 | the children's contents go on the stack with their nodes |
| Generator.LinesExtend | server/FamilyTreeLibrary/Service/TemplateGenerator.cs:199 | a line with a start date built from a decomposed node extends the written lines |
| Generator.ExpandHead | server/FamilyTreeLibrary/Service/TemplateGenerator.cs:195-205 | a queue expands to its head, the head's descendants, then the rest |
| Generator.PopStep | server/FamilyTreeLibrary/Service/TemplateGenerator.cs:195-205 | popping the head and pushing rest and children leaves the same pre-order after the head |
| Generator.WalkDrop | server/FamilyTreeLibrary/Service/TemplateGenerator.cs:192-195 | dropping an empty queue keeps the pending headers |
| Generator.WalkStep | server/FamilyTreeLibrary/Service/TemplateGenerator.cs:195-205 | emitting the head keeps the walk on the pre-order |
| Generator.PopShrinks | server/FamilyTreeLibrary/Service/TemplateGenerator.cs:195-205 | emitting the head strictly decreases the work pending |
| Generator.QueueInForest | server/FamilyTreeLibrary/Service/TemplateGenerator.cs:195-205 | a queue pending in the walk is part of the pre-order |
| Generator.FirstInForest | server/FamilyTreeLibrary/Service/TemplateGenerator.cs:191 | the first generation's nodes are part of the pre-order |
| Generator.ChildFailureIsInForest | server/FamilyTreeLibrary/Service/TemplateGenerator.cs:167-170 | a failing match of a pending queue is a failing header of the pre-order, which so does not keep a start date |
| Generator.TemplateGenerator.constructor | server/FamilyTreeLibrary/Service/TemplateGenerator.cs:23-37 | the generator keeps its family name, pool and lines |
| Generator.TemplateGenerator.Create | server/FamilyTreeLibrary/Service/TemplateGenerator.cs:23-37 | succeeds when every header of the collapsed text decomposes and keeps a start date whatever namesake is pooled, and only when every header decomposes and has a start date with none pooled (the log formatting of `GetFamily` throws otherwise, reading `Line.ToString` as `TemplateLine.ToString`); holds the name and id, a fresh duplicate-free pool with the `HashSet`'s hash-and-`Equals` test, and one line per header in pre-order, at its coordinate, with a start date and a member named as captured |
| Generator.TemplateGenerator.WriteTemplate | server/FamilyTreeLibrary/Service/TemplateGenerator.cs:77-104 | succeeds exactly when every line has a start date, and then writes the layout of the lines' texts; otherwise throws the exception of the first line whose text throws. A generator that `Create` returns has a start date on every line, so there it succeeds |
| Reader.SkipWhiteSpace | server/FamilyTreeLibrary/Service/TemplateReader.cs:66 | the first position from i that is not white space, skipping only white space |
| Reader.EmptyLifespanAt | server/FamilyTreeLibrary/Service/TemplateReader.cs:66-67 | finds an empty lifespan at the start exactly when one is there |
| Reader.LifespanHasNoBracket | server/FamilyTreeLibrary/Service/TemplateReader.cs:66 | an empty lifespan holds no '[' |
| Reader.RewriteKeepsBrackets | server/FamilyTreeLibrary/Service/TemplateReader.cs:66-67 | rewriting empty lifespans keeps the number of '[' |
| Reader.RewriteWithoutParentheses | server/FamilyTreeLibrary/Service/TemplateReader.cs:66-67 | a text without '(' is left as it is |
| Reader.NormalizedPageKeepsBrackets | server/FamilyTreeLibrary/Service/TemplateReader.cs:61-67 | normalising a page keeps its records, when the dash cleaning does |
| Reader.Openings | server/FamilyTreeLibrary/Service/TemplateReader.cs:69-76 | the positions of '[', increasing, one per bracket |
| Reader.OpeningsComplete | server/FamilyTreeLibrary/Service/TemplateReader.cs:69-76 | every '[' is among them |
| Reader.Records | server/FamilyTreeLibrary/Service/TemplateReader.cs:77-87 | one record per '[' |
| Reader.BetweenOpenings | server/FamilyTreeLibrary/Service/TemplateReader.cs:81-84 | no '[' lies inside a record |
| Reader.SegmentTail | server/FamilyTreeLibrary/Service/TemplateReader.cs:81-84 | a record's text opens with its bracket and holds no other |
| Reader.RecordShape | server/FamilyTreeLibrary/Service/TemplateReader.cs:84 | every record starts with its '[', holds no other, and is trimmed |
| Reader.TrimmedRecord | server/FamilyTreeLibrary/Service/TemplateReader.cs:84 | trimming keeps the bracket first |
| Reader.BeforeFirstRecord | server/FamilyTreeLibrary/Service/TemplateReader.cs:69-84 | the text before the first '[' is dropped and holds no record |
| Reader.OpeningsStep | server/FamilyTreeLibrary/Service/TemplateReader.cs:70-75 | one more character adds its position exactly when it is '[' |
| Reader.QueueOpenings | server/FamilyTreeLibrary/Service/TemplateReader.cs:69-76 | the first loop queues exactly the openings |
| Reader.FillRecords | server/FamilyTreeLibrary/Service/TemplateReader.cs:77-87 | the second loop fills exactly the records |
| Reader.GetPageLines | server/FamilyTreeLibrary/Service/TemplateReader.cs:57-88 | the records of the normalised page |
| Reader.Segments | server/FamilyTreeLibrary/Service/TemplateReader.cs:93-101 | one trimmed slot per split character |
| Reader.TrimEach | server/FamilyTreeLibrary/Service/TemplateReader.cs:101 | every piece trimmed, in order |
| Reader.SegmentsTrimPieces | server/FamilyTreeLibrary/Service/TemplateReader.cs:101 | the slots are the pieces after the first, trimmed |
| Reader.ParseSlots | server/FamilyTreeLibrary/Service/TemplateReader.cs:90-162 | reads exactly when there are at least two slots, the coordinate parses, and slot 9 (if any) is not empty. Gives the source's exception for each failure. On success, the coordinate, member name, an in-law iff slot 5 exists, and a dynamic iff slot 9 exists, titled after both |
| Reader.WithIdIdentifies | server/FamilyTreeLibrary/Models/Person.cs:18-22 | a constructor over a document without an id adds only the id |
| Reader.FillSlots | server/FamilyTreeLibrary/Service/TemplateReader.cs:102-133 | the loop parses the coordinate at slot 0 and fills exactly the slots' documents |
| Reader.ParsedCoordinateNotEmpty | server/FamilyTreeLibrary/Service/TemplateReader.cs:134-137 | a parsed coordinate is never the empty one |
| Reader.NewPerson | server/FamilyTreeLibrary/Service/TemplateReader.cs:142-147 | a fresh person over the document with an id added |
| Reader.NewDynamic | server/FamilyTreeLibrary/Service/TemplateReader.cs:148-160 | throws exactly for a start slot without a date; with a date, a fresh dynamic titled after member and in-law; without slot 9, none |
| Reader.GetLine | server/FamilyTreeLibrary/Service/TemplateReader.cs:90-162 | succeeds exactly when `ParseLine` does, with its exception otherwise; the line holds the parsed parts with fresh objects |
| Reader.GetSlotsLine | server/FamilyTreeLibrary/Service/TemplateReader.cs:102-161 | the same over the slots |
| Reader.SlotsAssembled | server/FamilyTreeLibrary/Service/TemplateReader.cs:134-161 | the filled documents pass the name checks (so the in-law and in-law-required throws never happen), and the line is what they assemble |
| Reader.NewLine | server/FamilyTreeLibrary/Service/TemplateReader.cs:142-161 | throws exactly for a start slot without a date; otherwise the line of the assembled parts with fresh objects |
| Reader.RenderFieldsChunks | server/FamilyTreeLibrary/Models/Person.cs:140-157 | a person's text is the name, then the lifespan around an en dash |
| Reader.LifespanChunksPlain | server/FamilyTreeLibrary/Models/Person.cs:140-157 | the halves of a readable lifespan hold no split character |
| Reader.SplitPersonText | server/FamilyTreeLibrary/Service/TemplateReader.cs:101 | splitting a person's text gives the name and the two lifespan halves |
| Reader.NameSlotRead | server/FamilyTreeLibrary/Service/TemplateReader.cs:107 | the name slot reads back as the name |
| Reader.BirthSlotRead | server/FamilyTreeLibrary/Service/TemplateReader.cs:108 | the birth-date slot reads back as the birth date |
| Reader.DeceasedSlotRead | server/FamilyTreeLibrary/Service/TemplateReader.cs:118 | the deceased slot, "Present" included, reads back as the deceased date |
| Reader.SplitStart | server/FamilyTreeLibrary/Data/Models/TemplateLine.cs:53-56 | the dynamic part of a line's text splits into its two pieces |
| Reader.SplitTail | server/FamilyTreeLibrary/Data/Models/TemplateLine.cs:49-56 | the in-law and dynamic parts split into their pieces |
| Reader.DottedPlain | server/FamilyTreeLibrary/Service/TemplateReader.cs:106 | a dotted coordinate holds no split character and is trimmed |
| Reader.SplitLinePrefix | server/FamilyTreeLibrary/Service/TemplateReader.cs:101 | the coordinate and member of a line's text split into five pieces |
| Reader.SplitLineText | server/FamilyTreeLibrary/Service/TemplateReader.cs:101 | a line's text splits into the coordinate's, member's and remaining pieces |
| Reader.LineSlotsAt | server/FamilyTreeLibrary/Service/TemplateReader.cs:104-131 | the slots of a line's text are, position by position, those the reader's switch reads |
| Reader.LineSlotsSplit | server/FamilyTreeLibrary/Service/TemplateReader.cs:104-131 | the member's four slots, then the rest |
| Reader.TrimInLawPieces | server/FamilyTreeLibrary/Service/TemplateReader.cs:101 | the in-law's pieces trim to its slots |
| Reader.TrimStartPieces | server/FamilyTreeLibrary/Service/TemplateReader.cs:101 | the dynamic's pieces trim to its slots |
| Reader.TrimTailPieces | server/FamilyTreeLibrary/Service/TemplateReader.cs:101 | the pieces after the member trim to their slots |
| Reader.SegmentsOfLineText | server/FamilyTreeLibrary/Service/TemplateReader.cs:101 | the slots of a line's text are `LineSlots` |
| Reader.ParseLineSlots | server/FamilyTreeLibrary/Service/TemplateReader.cs:102-133 | a parsed line's persons are the documents its slots fill |
| Reader.PersonSlotsFields | server/FamilyTreeLibrary/Service/TemplateReader.cs:107-130 | three slots fill a hashable person with those name and dates |
| Reader.PersonSlotsRead | server/FamilyTreeLibrary/Service/TemplateReader.cs:107-130 | the slots of a person's text read back as that person |
| Reader.ReadLineText | server/FamilyTreeLibrary/Service/TemplateReader.cs:90-162 | reading back a line's `ToString` text gives its coordinate, persons and start date, an in-law and dynamic exactly when written |
| Reader.ReadSlots | server/FamilyTreeLibrary/Service/TemplateReader.cs:90-162 | a record with a line's slots reads as that line |
| Reader.StartWithoutInLawReadsAsInLaw | server/FamilyTreeLibrary/Service/TemplateReader.cs:147-160 | a line written with a start date but no in-law reads back with that date as an unhashable in-law and no dynamic |
| Reader.RenderIsLineText | server/FamilyTreeLibrary/Data/Models/TemplateLine.cs:46-58 | the corrected text of a line is the coordinate, the member's text, the in-law's part and the start-date part, each shown exactly when present |
| Reader.RenderReadsBack | server/FamilyTreeLibrary/Data/Models/TemplateLine.cs:46-58 | the corrected text of a line reads back to its coordinate, member and in-law fields, with a dynamic exactly when a start date is shown |
| Reader.ContainerName | server/FamilyTreeLibrary/Service/TemplateReader.cs:30 | a name exactly when the URI has a '/', without a '/'; otherwise `IndexOutOfRangeException` |
| Reader.ContainerNameOfPath | server/FamilyTreeLibrary/Service/TemplateReader.cs:30 | the container of ".../container/blob" is "container" |
| Reader.AllRecordsStep | server/FamilyTreeLibrary/Service/TemplateReader.cs:33-37 | one more page appends its records |
| Reader.GetAllRecords | server/FamilyTreeLibrary/Service/TemplateReader.cs:33-37 | the records of every page, page after page |
| Reader.RecordErrorOfParse | server/FamilyTreeLibrary/Service/TemplateReader.cs:40-46 | a record's exception is the line's, else the family name's, else the hash's |
| Reader.PersonSlotsHash | server/FamilyTreeLibrary/Service/TemplateReader.cs:102-133 | a person from slots hashes unless the line stops before its dates, with that key missing |
| Reader.HashErrorOfRecord | server/FamilyTreeLibrary/Service/TemplateReader.cs:45-46 | the hash exception of a parsed record is the one its slot count predicts |
| Reader.AllReadNext | server/FamilyTreeLibrary/Service/TemplateReader.cs:38-48 | one more record that reads |
| Reader.FirstThrowsNext | server/FamilyTreeLibrary/Service/TemplateReader.cs:38-48 | after records that read, one that throws is the first to |
| Reader.FirstThrowsUnique | server/FamilyTreeLibrary/Service/TemplateReader.cs:38-48 | only one record is the first to throw |
| Reader.AllReadAppend | server/FamilyTreeLibrary/Service/TemplateReader.cs:33-49 | records that read, followed by records that read |
| Reader.IdentifiedHash | server/FamilyTreeLibrary/Models/Person.cs:125-138 | adding an id changes neither hash nor fields |
| Reader.PooledExtends | server/FamilyTreeLibrary/Service/TemplateReader.cs:45-47 | pooled persons stay pooled as the pool grows |
| Reader.AllReadFromAppend | server/FamilyTreeLibrary/Service/TemplateReader.cs:47 | lines read from two runs of records |
| Reader.CanonicalFields | server/FamilyTreeLibrary/FamilyTreeUtils.cs:38-39 | the pooled person equal to one read from slots has the slots' name and dates |
| Reader.ReadStep | server/FamilyTreeLibrary/Service/TemplateReader.cs:38-48 | one more record read into one more pooled line |
| Reader.TemplateReader.constructor | server/FamilyTreeLibrary/Service/TemplateReader.cs:13-17 | a reader with a fresh empty pool |
| Reader.TemplateReader.ReadTemplate | server/FamilyTreeLibrary/Service/TemplateReader.cs:20-55 | throws the container name's exception first, leaving the pool. On success every record read, each line from its record with pooled persons, and the parsed family name. Otherwise the first record to throw, or the family name's exception. Either way the pool grows only by persons of the lines read, plus on a throwing record at most one new person, that record's member |
| Reader.TemplateReader.ReadRecords | server/FamilyTreeLibrary/Service/TemplateReader.cs:38-48 | every record read into a pooled line in order, or the exception of the first record to throw; the pool grows only by persons of the lines read before it, plus at most that record's member, new |
| Reader.TemplateReader.ReadNext | server/FamilyTreeLibrary/Service/TemplateReader.cs:38-47 | one record more: its line, read from it, with the pool grown by that line's persons; or its exception, with at most its member, new, added; earlier lines stay read from their records |
| Reader.TemplateReader.ReadRecord | server/FamilyTreeLibrary/Service/TemplateReader.cs:40-47 | fails exactly with the record's exception, having added at most one new person, the record's member; otherwise the line read from it with pooled persons, the pool grown by at most them |
| Reader.TemplateReader.PoolPersons | server/FamilyTreeLibrary/Service/TemplateReader.cs:45-46 | throws exactly the hash exception of the member, leaving the pool, then that of the in-law, after pooling at most the member; otherwise both replaced by pooled equals with the same fields, the pool grown by at most them |
| Reader.TemplateReader.Canonical | server/FamilyTreeLibrary/FamilyTreeUtils.cs:30-40 | the pooled person equal to the one read, with the slots' name and dates, the pool grown by at most it; or its hash exception, leaving the pool |
| Strings.TrimStart | server/FamilyTreeLibrary/Service/TemplateReader.cs:61 | removes exactly the leading white space |
| Strings.TrimEnd | server/FamilyTreeLibrary/Service/TemplateReader.cs:61 | removes exactly the trailing white space |
| Strings.Trim | server/FamilyTreeLibrary/Service/TemplateReader.cs:101 | the result is trimmed and no longer |
| Strings.TrimAround | server/FamilyTreeLibrary/Service/TemplateReader.cs:101 | trimming a padded trimmed text gives it back |
| Strings.Split | server/FamilyTreeLibrary/Service/TemplateReader.cs:101 | one piece more than separators, none holding a separator |
| Strings.SplitWeave | server/FamilyTreeLibrary/Service/TemplateReader.cs:101 | splitting separator-free chunks woven with separators gives them back |
| Strings.SplitJoin | server/FamilyTreeLibrary/Service/TemplateReader.cs:106 | splitting a join on its separator gives the parts back |
| Strings.NatToString | server/FamilyTreeLibrary/Data/Models/InheritedFamilyName.cs:45-51 | a non-empty digit string of value n |
| Strings.ParseNatToString | server/FamilyTreeLibrary/Data/Models/InheritedFamilyName.cs:12 | `Convert.ToInt32` of a 32-bit value's text gives it back |
| Strings.ParseInt32 | server/FamilyTreeLibrary/Data/Models/InheritedFamilyName.cs:12 | a parsed value is a 32-bit integer; the only exceptions are `FormatException` and `OverflowException` |
| Strings.ParseDigitsOnly | server/FamilyTreeLibrary/Data/Models/InheritedFamilyName.cs:12 | a run of decimal digits parses to its value, leading zeros included |
| Strings.ParseIntToString | server/FamilyTreeLibrary/Service/TemplateReader.cs:106 | parsing the text of any 32-bit value, negative ones included, gives the value back |
| Strings.ParseWithoutMinus | server/FamilyTreeLibrary/Data/Models/InheritedFamilyName.cs:12 | a text without a minus sign never parses to a negative value |
| Strings.ParseWhiteAround | server/FamilyTreeLibrary/Data/Models/InheritedFamilyName.cs:12 | number white space at either end does not change the parse |
| Strings.ParseInt32Padded | server/FamilyTreeLibrary/Data/Models/InheritedFamilyName.cs:12 | a number with white space around it and an optional leading '+' parses to its value |
| Strings.CollapseWhiteSpace | server/FamilyTreeLibrary/Service/TemplateGenerator.cs:320 | the result is collapsed, empty exactly when the input is, and starts like it |
| Strings.CollapseCollapsed | server/FamilyTreeLibrary/Service/TemplateGenerator.cs:320 | collapsing is idempotent |
| Strings.CollapseKeepsText | server/FamilyTreeLibrary/Service/TemplateGenerator.cs:320 | collapsing changes only white space: the non-white characters stay, in order |
| Strings.NormalizeSpace | server/FamilyTreeLibrary/Service/TemplateReader.cs:61 | the normalised page is collapsed and trimmed |
| Strings.NormalizeKeepsText | server/FamilyTreeLibrary/Service/TemplateReader.cs:61 | normalising changes only white space: the non-white characters of the page stay, in order |
| Strings.TrimKeepsText | server/FamilyTreeLibrary/Service/TemplateReader.cs:61 | `TrimStart` and `TrimEnd` remove white space only |
| Strings.CollapseKeepsCount | server/FamilyTreeLibrary/Service/TemplateGenerator.cs:320 | collapsing keeps every non-white-space character's count |
| Strings.NormalizeKeepsCount | server/FamilyTreeLibrary/Service/TemplateReader.cs:61 | normalising keeps every non-white-space character's count |

## Left out

- PDF reading and writing (iText), file and blob storage, streams and logging. A template's pages are given as strings, and `WriteTemplate` returns the page breaks and paragraphs it would add.
- The header regular expressions of `GetRegexOfGeneration` are not implemented. The matcher is a parameter that returns well-formed matches: non-empty, inside the text and in order. Only the label shapes are modelled, as predicates.
- The en-dash cleaning regular expression of `GetPageLines` is a parameter, `cleanDashes`. The empty-lifespan rewrite and the white-space collapse are modelled.
- `Guid.NewGuid()` is a `GuidSource` of given identifiers. `new Random().Next()` in the one-argument `InheritedFamilyName` constructor is a given id.
- `FamilyTreeDate` is kept as its text: date ordering and date equality are parameters, and dates are equal when their texts are.
- The floats of `WriteTemplate`, the page height and 36f, are integers.
- The person pool (`PersonPools.Matches`) finds a person as a `HashSet` does: equal hash keys (`Persons.HashKeyOf`, which holds the name and both date texts) and then `Person.Equals`, given as the reflexive relation `same` over documents. Collisions of the source's 32-bit hash codes are not modelled: equal hash keys stand for equal hash codes. Equality and ordering of nodes, persons and lines take their relations as parameters.
- Generator.TemplateGenerator.Create: the two-id constructor's `SortedSet<Person>` (TemplateGenerator.cs:35) is modelled by the same hash-and-`Equals` pool as the `HashSet`. The source's `SortedSet` merges two persons whenever `Person.CompareTo` (Person.cs:85-108) gives 0, whatever their hashes. So persons whose texts differ but compare as equal are one pooled person in the source and two in the model, and for that constructor the lines' member and in-law can be a different, earlier-pooled person in the source than the one `Headers.Built` describes.
- PersonPools.PersonPool.GetPerson: `people.First((temp) => temp == p)` (FamilyTreeUtils.cs:39) is taken to find the pooled person by the pool's own test. Person.cs declares no `operator ==`; if the `AbstractComparableBridge` it derives from (not part of this model) declares none either, `==` is reference equality there, and `First` throws `InvalidOperationException` for every person equal to, but not the same object as, one already pooled. The model returns the pooled equal instead.
- PersonPools.PersonPool.FirstByName: the pool is enumerated in the order persons were added, as the `HashSet` of the one-argument `TemplateGenerator` constructor and of `TemplateReader` is. The `SortedSet` of the two-id constructor (TemplateGenerator.cs:35) enumerates in `Person.CompareTo` order instead, so there `FirstOrDefault` (TemplateGenerator.cs:239) gives the least namesake in that order; this order is not modelled.
- Headers.GetHeaderDecomposition: the namesake it consults is the one `PersonPools.PersonPool.FirstByName` gives, so for the two-id constructor's `SortedSet` it is not modelled which namesake that is (see the line above). `Headers.DecomposeRecovered` shows that the namesake can only decide whether a start date is kept.
- FamilyTreeNodes.FamilyTreeNode: the `Id`, `MemberId`, `InLawId` and `DynamicId` getters (FamilyTreeNode.cs:49-115) return the stored text, without `Guid.Parse`. So the model does not capture three behaviours: the `FormatException` for a malformed id; `Equals` comparing ids case-insensitively, as parsed `Guid`s; and `ToString` printing each id in canonical lower-case form. `Equals` and `ToString` agree with the source for ids stored in the canonical form `Guid.ToString()` writes, which is how the typed constructors and the `InLawId` setter store them.
- `HierarchialCoordinate` is a sequence of indices. Its text form "[1.2.1]" is assumed, because the type is not part of this model.
- The in-law and in-law-required throws of `GetLine` (TemplateReader.cs:143-146, 154-157) and the `birthName` throw of `BuildHeader` (TemplateGenerator.cs:128-131) cannot happen. They are proved unreachable and not modelled as branches.
- `ReadTemplate` gathers the records of all pages before reading any. `GetPageLines` has no effect and never throws, so this keeps the order of every effect and exception.
- Where the written description of the system and the code disagree, the model follows the code. One date without an in-law stays the member's birth date (`Headers.DecomposeOneDate`); the description calls it a deceased date.
- A reader line without a family dynamic makes the source's `ToString` throw `NullReferenceException`, and the as-written `TemplateLines.RenderAsWritten` returns that exception. The corrected `TemplateLines.Render` writes such a line without the ": {dynamic}" part.
- Persons.Person.Create, Persons.Person.Copy, FamilyDynamics.FamilyDynamic.Create and FamilyDynamics.FamilyDynamic.Copy: the source keeps a reference to the caller's dictionary (Person.cs:18, 110-113; FamilyDynamic.cs:18, 77-80), so a later write through one object shows through the other, and the generated id is written into the caller's dictionary. The model's documents are values, so this sharing is not captured.
- `Line`, the type `GetLine` returns and `ReadTemplate` collects (TemplateReader.cs:24, 40, 47, 90, 161), is not part of this model. It is modelled as `TemplateLine`, with its constructor read as (coordinate, member, in-law, dynamic), the order of TemplateReader.cs:47 and 161, and the `Family = family` assignment at TemplateReader.cs:52 read as a conversion of each `Line` to that `TemplateLine`. The same reading covers `Content`, whose header is a `Line` (Content.cs:3-5): the `TemplateLine` enqueued at TemplateGenerator.cs:177 and added back at TemplateGenerator.cs:199 is taken to pass through `Line` unchanged, and `Line.ToString`, which `Content.ToString` calls (Content.cs:37), is taken to be `TemplateLine.ToString` (TemplateLine.cs:46-58). The exception modelled at TemplateGenerator.cs:194 rests on that assumption: `Contents.JoinAsWritten`, `Contents.JoinFirstFailure`, the error of `Generator.Visit` and the halves of `Generator.GetFamily` and `Generator.Create` that say every header shows a start date when they succeed hold only if `Line.ToString` throws where `TemplateLine.ToString` does.
- Logging is left out and assumed never to throw. Where the source logs an object whose `ToString` can throw, a logger with that level enabled would format it: the family dynamic at TemplateGenerator.cs:153 (its text is the start date) and the header line at TemplateGenerator.cs:171 (see the first finding). Those exceptions are not modelled; `GetContents` and `BuildHeader` succeed on such lines. The queue formatted at TemplateGenerator.cs:194 is different: `string.Join` builds that text before the logger is called, whatever the level, so its exception is modelled (`Generator.Visit`), on the assumption, stated in the `Line` line above, that `Line.ToString` is `TemplateLine.ToString`.
- Strings.ParseInt32: `Convert.ToInt32` reads the sign and white space of the current culture. The model uses the invariant culture: '+' and '-' signs, and tab to carriage return and the space as white space. The culture's other sign texts, and a trailing NUL, are not modelled.
- FamilyTreeUtils.ValidateExtendedAttributeAccessibility: `CurrentCultureIgnoreCase` depends on the current culture, so the comparison is a parameter. Only its reflexivity is assumed (`FamilyTreeUtils.AcceptedIsNotRequired`).
- FamilyTreeNodes.FamilyTreeNode.ToString: the order in which the hash set of family names is enumerated is unspecified. It is a parameter, `order`, that lists the set exactly.
- Pagination.WriteLines: when a line's text throws, the source has already added the earlier pages and paragraphs to a document it does not close. The model returns the exception and drops that partial document.
- `FamilyTreeNode.GetHashCode` is not modelled. It combines the three ids that `Equals` compares, so equal nodes hash alike.
- `TemplateReader` is modelled with the corrected family-name parse, `InheritedFamilyNames.Parse` (see Findings).

## Findings

| source | as written | input that shows it | evidently intended | confidence | as-written member | corrected member |
|---|---|---|---|---|---|---|
| server/FamilyTreeLibrary/Data/Models/TemplateLine.cs:53 | `FamilyDynamic.FamilyDynamicStartDate is not null` indexes the start-date key, which throws `KeyNotFoundException` when the key is absent | a generated line whose header has no start date (e.g. "I: John Smith 1900"), whose dynamic holds only "id" and "pageTitle"; if `Line.ToString` is `TemplateLine.ToString` (the assumption in "Left out"), `GetFamily` already throws when it formats that line's queue for the log (TemplateGenerator.cs:194), and the generator constructor then throws on such a text | the ": {dynamic}" suffix only when a start date is there, and no exception | not executed | TemplateLines.RenderAsWrittenAgrees | Reader.RenderReadsBack |
| server/FamilyTreeLibrary/Data/Models/InheritedFamilyName.cs:10-12 | the name is the text before the first '-' and the id is the second piece, so a hyphenated family name loses its tail or throws | "Smith-Jones-7", the text of `InheritedFamilyName("Smith-Jones", 7)`: `Convert.ToInt32("Jones")` throws `FormatException` | parsing the text `Text` writes gives the name back: the id after the last '-' | not executed | InheritedFamilyNames.ParseAsWrittenLosesHyphenatedName | InheritedFamilyNames.ParseInstance |
