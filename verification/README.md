# Registry generation for utility subscribers — a Dafny model

This project models the registry generator of a small utility-accounting
application. For a chosen billing period (month, year) it walks over every
subscriber ("абонент") and, for each one, writes a reconciliation document
("реестр"). The generator does five things:

- It derives the prior period, rolling back to December of the previous year in January.
- It computes the consumption of each utility (electricity, water, wastewater, gas) from two cumulative meter readings:
  - a missing previous reading counts as zero;
  - a negative difference is kept as it is;
  - electricity alone is multiplied by the subscriber's transformation ratio, and a missing or zero ratio means 1.
- It composes the document:
  - three centred header lines;
  - one section per utility whose current reading is present;
  - the ratio lines only when the ratio is not 1;
  - one line per complete signatory block from the settings;
  - a fixed closing block.
- It names the file `<name>_<month>_<year>_реестр.docx`, after deleting the characters `\ / * ? : " < > |` from the subscriber name.
- It counts every subscriber as exactly one success or one failure, and never stops the batch because one subscriber failed.

Modules, one per concern:

| file | module | contents |
|---|---|---|
| wrappers.dfy | `Wrappers` | `Option`, `Outcome` |
| seqs.dfy | `Seqs` | order-preserving `Filter`, `IsSubsequence` and their lemmas |
| decimal.dfy | `Decimal` | `str(int)` as `IntToString`, with the parser that inverts it |
| period.dfy | `Period` | billing periods, `Previous`, month-name tables, `FormatMonth` |
| consumption.dfy | `Consumption` | readings, `ComputeDelta`, `EffectiveRatio` |
| report.dfy | `Report` | sections, paragraph layout, signature lines, `Render` |
| filename.dfy | `FileName` | `Sanitize`, `RegistryFileName`, `JoinPath` |
| batch.dfy | `Batch` | per-subscriber step, the fold over subscribers, the counting loop |

Collaborators become inputs:

- The database becomes `Environment.lookup : (id, month, year) -> Option<Reading>`.
- Folder creation and document saving become `Environment.makeFolder` and `Environment.save`. Each returns `Pass` or `Fail(message)`.
- The settings file becomes a `Settings` value.
- The document is a sequence of `Para` values. A `Figure` paragraph keeps its number as an exact `real`. The code renders readings and consumptions with one decimal place and the transformation ratio with Python's `str()`; neither rendering is modelled.
- The progress text box becomes the list of `Entry` values in the run summary: one entry per subscriber, with its outcome.

## Behaviour of the code worth noting

- A signature line is `position + " " + name + "\t/____________/"` (main.py:681).
- Every registry file ends in `_реестр.docx` (main.py:688).
- A missing or unreadable settings file does not stop the run: the code carries on with empty settings, that is the default folder `C:\Реестры по абонентам` and no signatures (main.py:522-533).
- The code prints each failure's reason and keeps only the two counters. The model keeps each subscriber's outcome in `Entry.status`, which carries what the printed line shows.

## Model

| member | source | states |
|---|---|---|
| Period.Previous | main.py:570-571 | the prior period is a valid period exactly one month earlier (month index minus one) |
| Period.PreviousIsOneMonthEarlier | main.py:570-571 | a valid q is the prior period iff it lies one month earlier; January gives (12, year−1), months 2..12 give (month−1, year) |
| Period.MonthName | main.py:509-514 | the month name used in folder names, titles and file names is 3 to 8 lower-case Russian letters |
| Period.MonthNameInjective | main.py:509-514 | distinct months have distinct lower-case names; with `FileName.JoinPathInjective` this keeps monthly folders apart (`Batch.OutputFolderDistinguishesMonths`) |
| Period.FormatMonth | main.py:464-470 | a month 1..12 gets a label of the same length as its name, starting with a capital letter; any other number gets "Месяц N" |
| Period.FormatMonthCapitalisesName | main.py:464-470 | the label of month 1..12 is its lower-case folder name with the first letter capitalised |
| Decimal.IntToString | main.py:688 | the year's text is non-empty, starts with '-' iff the year is negative, and is decimal digits after that |
| Decimal.ParseIntToString | main.py:688 | the year's decimal text reads back as the year, so different years give different text |
| Consumption.ComputeDelta | main.py:605-609 | a consumption exists iff the current reading is present; previous + consumption = current; previous is the stored value, or 0 when absent; adjusted = consumption × multiplier |
| Consumption.EffectiveRatio | main.py:612 | the ratio in force is never 0: a missing or zero ratio becomes 1, any other stored value is used unchanged |
| Consumption.ApplicableIgnoresPrevious | main.py:605-607 | whether a utility is reported does not depend on the previous reading; a null current reading never is |
| Consumption.ZeroBaselineConsumption | main.py:606-609 | with no previous value, the whole current reading is consumption and the adjusted value is reading × ratio |
| Consumption.NegativeDeltaPassesThrough | main.py:609 | a current reading below the previous one gives a negative consumption; nothing is clamped |
| Consumption.UnitRatioLeavesConsumption | main.py:612-613 | with ratio 1, or a missing or zero ratio, or any utility other than electricity, the adjusted consumption is the plain consumption |
| Report.Sections | main.py:605-673 | each section's utility has a present current reading, and each section carries the consumption the calculator gives for that utility |
| Report.SectionsSelectPresent | main.py:605-673 | the reported utilities are exactly the utilities whose current reading is present, in the fixed order |
| Report.SectionPresentIffCurrent | main.py:605-673 | a utility has a section iff its current reading is present, whatever the previous record holds |
| Report.SectionsInFixedOrder | main.py:605-673 | the sections follow the order electricity, water, wastewater, gas |
| Report.SectionsPreviousBaseline | main.py:605-607 | each section's start reading is the previous record's value for that column, and 0 when there is no previous record or that column is null |
| Report.SectionsMultiplier | main.py:612-613 | an electricity section is scaled by the ratio in force (adjusted = consumption × ratio); every other section has multiplier 1 and adjusted = consumption |
| Report.AllNullRecordHasNoSections | main.py:605-673 | a record whose four readings are all null yields no sections |
| Report.AllNullRecordRendersNoSections | main.py:588-684 | such a record renders as the header, the signature lines and the closing block only |
| Report.Compose | main.py:588-684 | the registry keeps the subscriber, period and signatures, and each section's delta is the calculator's output for its utility |
| Report.RatioLines | main.py:620-622 | the ratio lines are absent iff the ratio in force is 1 |
| Report.RenderSection | main.py:615-673 | every section shows its consumption; electricity, water and gas sections show the start reading, the end reading and the consumption as paragraphs 2-4; every section ends with an empty paragraph |
| Report.ElectricityExample | main.py:605-622 | readings 100 then 120 with ratio 5 give consumption 20 and ratio-adjusted consumption 100, both shown in the section |
| Report.RatioLineIffRatioNotOne | main.py:615-630 | a section shows the transformation-ratio line iff it is electricity with ratio ≠ 1; that line and the next show the ratio and the ratio-adjusted consumption |
| Report.SignatureLine | main.py:681 | a signature line is the position, a space, the name, then a tab and the signature blank |
| Report.SignatureLines | main.py:676-681 | there are never more signature lines than signatory blocks |
| Report.SignatureLinesAreCompleteBlocks | main.py:676-681 | the signature lines are the lines of the blocks whose position and name are both non-empty, one each, in settings order |
| Report.Header | main.py:588-602 | the header is three headings: the fixed title `Title`, the period line "за <month name> <year> г." and the subscriber's name |
| Report.PeriodLineDistinguishesYears | main.py:597 | two period lines with the same month name are equal only when the years are equal, so the line names the registry's year |
| Report.Render | main.py:588-684 | the document starts with the three header lines and always ends with the two-line closing block; `RenderPlacesSections` and `SectionTitleInDocumentIff` pin what lies between |
| Report.RenderPlacesSections | main.py:605-673 | the rendered sections fill the document from the fourth paragraph up to the signature lines |
| Report.RenderSectionsShowConsumption | main.py:618-670 | every section's consumption appears as a figure among the rendered sections |
| Report.RenderShowsEveryConsumption | main.py:605-673 | every section's consumption appears as a figure in the document |
| Report.TitleInSectionsIff | main.py:615-667 | the rendered sections show a utility's numbered title iff that utility has a section |
| Report.TitleInRenderIff | main.py:588-684 | the document shows a utility's numbered title iff that utility has a section; no header, signature or closing line can be mistaken for one |
| Report.SectionTitleInDocumentIff | main.py:605-667 | a utility's numbered title is printed in the registry iff its current reading is present, whatever the previous record holds |
| Report.RenderEndsWithSignaturesAndClosing | main.py:676-684 | the signature lines come immediately before the closing block |
| FileName.Sanitize | main.py:687 | the safe name contains no forbidden character and is no longer than the name |
| FileName.SanitizeKeepsAllowed | main.py:687 | every allowed character of the name survives in the safe name |
| FileName.SanitizeProperties | main.py:687 | the safe name is a subsequence of the name; sanitising is idempotent; a name without forbidden characters is unchanged |
| FileName.SanitizeConcat | main.py:687 | sanitising a concatenation is concatenating the sanitised parts |
| FileName.DistinctNamesCanCollide | main.py:687-690 | "A/B" and "AB" get the same safe name, so their registries for one period share one registry file name |
| FileName.SanitizeExample | main.py:687 | `ООО "Ромашка"/2` sanitises to `ООО Ромашка2` |
| FileName.FileNameExample | main.py:687-688 | its registry for March 2024 is `ООО Ромашка2_март_2024_реестр.docx` |
| FileName.RegistryFileName | main.py:688 | the file name starts with the safe name and ends with "_реестр.docx" |
| FileName.RegistryFileNameIsClean | main.py:687-688 | a file name never contains a forbidden character |
| FileName.FileNameDistinguishesPeriods | main.py:536-688 | one subscriber's file names for two periods are equal only when the periods are equal, so one subscriber's registries for the same month of different years never replace each other in the shared month folder |
| FileName.JoinPath | main.py:536 | the joined path ends with the folder or file part and starts with the root |
| FileName.JoinPathInjective | main.py:536 | under one root, different folder or file parts give different paths |
| Batch.OutputFolderDistinguishesMonths | main.py:533-536 | two months share an output folder only if they are the same month |
| Batch.OutputFolder | main.py:533-536 | the output folder starts with the configured or default save path and ends with the month name |
| Batch.ProcessOne | main.py:556-697 | a missing current record means no data; otherwise the registry is saved under its registry file name, and the subscriber is a success iff the save passes |
| Batch.Process | main.py:549-697 | there is one entry per subscriber, in order, and each entry depends only on that subscriber |
| Batch.Tally | main.py:545-697 | successes plus failures equal the number of entries; successes are the saved entries and failures the entries that were skipped or failed |
| Batch.Generate | main.py:472-697 | no subscribers stops before any folder is made; a folder failure stops the run; a completed run has successes + failures = number of subscribers, with one entry per subscriber from its own processing |
| Batch.GenerateRegistries | main.py:545-697 | the counting loop computes exactly the run of `Generate`, so its counters always sum to the number of subscribers |
| Batch.ProcessConcat | main.py:549-697 | processing a list is processing its parts and concatenating the results, so no outcome cuts the batch short |
| Batch.FailureThenSuccess | main.py:564-697 | when the first subscriber has no record and the second has one that saves, the run reports one success and one failure, and the second registry is saved |
| Batch.CollidingNamesBothSaved | main.py:687-694 | two subscribers whose names sanitise alike are both saved under the same file name and both count as successes |
| Batch.AllNullRecordStillSaved | main.py:564-693 | a record whose readings are all null is not "no data": its registry is saved and it counts as a success |

## Left out

- Window, widgets, message boxes and the month and year prompts are left out. Month and year are inputs, with the month in 1..12. Cancelling a prompt is not modelled.
- Progress and summary text is not modelled line by line. The run summary holds one `Entry` per subscriber and the two counts. The final text that depends on whether anything succeeded is left out.
- SQL queries are replaced by a total lookup function. The defensive column-count guards (`len(row) > i`) always pass on the structured `Reading`.
- Batch.ProcessOne: only the save step can fail. An exception raised by a database query, or by `float()` on a malformed stored value, is not modelled. In the source, such an exception is caught and counted as a failure in the same way.
- Consumption.EffectiveRatio: the ratio is a number or null. A ratio stored as text, which Python would multiply or compare differently, is not modelled.
- Floating-point arithmetic and number rendering are not modelled. Readings, consumptions and ratios are exact reals. The code prints readings and consumptions with one decimal place and the ratio with `str()` (an integer ratio 5 prints as `5`).
- Settings-file reading is replaced by a `Settings` value. Signature fields that are not strings in the JSON are not modelled.
- FileName.JoinPath: this is a simplified Windows join. Drive-relative roots such as `C:` and absolute second parts are not modelled.
- Fonts, alignment, styles and the docx file format are not modelled. Headings are a separate paragraph kind.
- Exceptions outside the loop other than folder creation are not modelled, for example a failing import of the document library. Like folder creation, they end the run with a critical-error message.
- The updater, update packager and build scripts are not part of this model. They are file copying and process plumbing.
