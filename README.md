# ToolUp-IMS inventory core, modelled in Dafny

ToolUp-IMS is a small inventory system for a tool shop. A browser page keeps the list
of items, the stock statistics and a search filter. It sells, adds, updates and deletes
items through a client service, which also generates "TU" item ids. Two generations of
server code store the items in a Google spreadsheet:

- an adapter with a fixed column order behind `/api/inventory`;
- an adapter keyed by the header row behind `/api/items`.

A sales endpoint records sales as rows of a second sheet and lists them by date. A
dashboard groups the sales into the five best sellers and counts items per category.
An add-item dialog builds the new item and makes up a SKU when none is typed.

The model, module by module:

- `Js` and `JsText`: the JavaScript values the code handles (`undefined`, booleans,
  strings, numbers as exact reals, `NaN`), truthiness and `||`. Also `parseInt` and
  `parseFloat` with their leading-digit reading, `padStart`, ASCII case mapping,
  `includes` and `substring`.
- `Seqs`: an order-preserving filter and the subsequence relation.
- `Table`: a sheet as a sequence of rows of cells. It stores what is written, and a
  blank cell is `undefined`. It also covers cell writes with skipped `null`/`undefined`
  values, clearing a range and `findIndex` on the first column.
- `Inventory` and `InventoryService`: the typed item, the page's list computations
  (statistics, sell rule, replace and remove by id, search) and the client service's id
  generator, id default and low-stock query.
- `Home` and `EarlyHome`: the inventory page as a class whose `items` field the
  handlers replace. `Home` is the current page; `EarlyHome` is its earlier copy, which
  has no alert dialog.
- `FixedSheet` and `KeyedSheet`: the two spreadsheet adapters as classes owning the
  row table, with each adapter's encode and decode rules.
- `Http`, `InventoryApi`, `ItemsApi` and `SalesApi`: the request handlers. Each has a
  pure choice of action, then one store operation.
- `Dashboard`: the grouping fold and its loop, insertion sort by quantity, the top five,
  and the category fold and its loop.
- `AddItemModal`: the dialog's form state, SKU generation and submit.

The environment enters as parameters. The items a fetch returns and whether a store
call succeeds are arguments of the page methods. `uuidv4()`, `Math.random()`, the
current time and the upload result are arguments as well. The spreadsheet client
rejecting is an optional failure message. Dates are integers, obtained through a
`time` function that stands for `new Date(v)`.

## Model

| member | source | states |
|---|---|---|
| InventoryService.GenerateItemId | src/utils/inventoryService.js:6-24 | the new id starts with the prefix "TU" and has at least three characters after it |
| InventoryService.TuNumbers | src/utils/inventoryService.js:8-14 | at most one number per existing item |
| InventoryService.TuNumbersSpec | src/utils/inventoryService.js:8-14 | a number is collected exactly when some item's id has the "TU" prefix and its suffix parses to that number; other ids are ignored |
| InventoryService.TuNumbersNone | src/utils/inventoryService.js:8-14 | with no prefixed id whose suffix parses, no number is collected |
| InventoryService.Present | src/utils/inventoryService.js:14 | dropping the NaN results never lengthens the list |
| InventoryService.PresentSpec | src/utils/inventoryService.js:14 | the kept numbers are exactly the parsed ones |
| InventoryService.Suffixes | src/utils/inventoryService.js:10-13 | one parse result per item, in order |
| InventoryService.HighestNum | src/utils/inventoryService.js:17 | the result bounds every collected number and is one of them; it is 0 when none was collected |
| InventoryService.ExistingAtMostHighest | src/utils/inventoryService.js:8-17 | every number read from an existing id is at most the highest |
| InventoryService.PrefixedNumber | src/utils/inventoryService.js:11-23 | for a non-negative k, `TU` + k padded to 3 digits reads back as k |
| InventoryService.GeneratedNumber | src/utils/inventoryService.js:17-23 | when the highest number plus one is non-negative, the new id's number is exactly that, and it exceeds every existing number |
| InventoryService.FirstGeneratedId | src/utils/inventoryService.js:8-23 | without any prefixed id that parses, the result is "TU001" |
| InventoryService.NeverTruncates | src/utils/inventoryService.js:20-23 | for every item list, the decimal text of the next number ends the new id whole, and the id is "TU" plus the wider of that text and three characters |
| InventoryService.NoTruncation | src/utils/inventoryService.js:20-23 | an example: after "TU999" the next id is "TU1000" |
| InventoryService.SuffixOfPrefixed | src/utils/inventoryService.js:11-12 | the number read from "TU"+p is `parseInt(p)` |
| InventoryService.PrefixedNumberAtLeast | src/utils/inventoryService.js:20-23 | the generated id always reads back a number, and never one below max+1, even for a negative maximum |
| InventoryService.GeneratedSuffixAbove | src/utils/inventoryService.js:17-23 | the new id's number is above every existing number |
| InventoryService.GeneratedIdIsFresh | src/utils/inventoryService.js:6-24 | the new id differs from every existing id, for every list of items |
| InventoryService.WithDefaultId | src/utils/inventoryService.js:42-46 | a supplied id is kept; an empty id is replaced by the generated one, and nothing else changes |
| InventoryService.SavedIdIsOwnOrFresh | src/utils/inventoryService.js:41-46 | saving changes only the id, and a generated id is fresh among the fetched items |
| InventoryService.ThresholdDefault | toolup-ims/src/utils/inventoryService.js:53 | with a missing or zero threshold an item needs restocking exactly when its quantity is at most 5 |
| InventoryService.LowStockItemsSpec | src/utils/inventoryService.js:111-116 | the low-stock items are exactly the items with quantity at most `lowStockThreshold \|\| 5`, as a subsequence in list order; the copy in toolup-ims/src/utils/inventoryService.js (lines 50-55) applies the same rule |
| Inventory.EffectiveThreshold | toolup-ims/src/utils/inventoryService.js:53 | `lowStockThreshold \|\| 5`: 5 for a missing or zero threshold, the threshold itself otherwise |
| Inventory.CalculateStats | pages/index.js:60-67 | totalItems is the list length; the low-stock count is the size of the low-stock list and at most the item count |
| Inventory.LowStockListSpec | pages/index.js:64 | the low-stock list holds exactly the items with quantity at most their own threshold, with no default; it keeps list order |
| Inventory.TotalValueAppend | pages/index.js:62 | the stock value fold adds up over concatenation |
| Inventory.TotalProfitAppend | pages/index.js:63 | the profit fold adds up over concatenation |
| Inventory.TotalsAround | pages/index.js:62-63 | each item contributes `price*quantity` to the value and its profit to the profit total |
| Inventory.Sold | pages/index.js:105-110 | a sale of q lowers the quantity by q and raises the profit by q*(price-costPrice); no other field changes; the quantity stays non-negative when q is at most the stock |
| Inventory.SalesCompose | pages/index.js:105-110 | two sales in a row equal one sale of their sum |
| Inventory.SoldValue | pages/index.js:62-110 | a sale of q lowers the item's stock value by q*price |
| Inventory.ReplaceById | pages/index.js:92 | the map keeps the list length |
| Inventory.ReplaceUniqueId | pages/index.js:92 | with a unique id, the replacement swaps exactly that item and keeps the others and their order |
| Inventory.ReplaceAbsentId | pages/index.js:92 | an update for an id not in the list changes nothing |
| Inventory.ReplaceValue | pages/index.js:62-92 | replacing a uniquely identified item changes the stock value by the difference of the two items' values |
| Inventory.ReplaceProfit | pages/index.js:63-92 | replacing a uniquely identified item changes the profit total by the difference of their profits |
| Inventory.SaleValue | pages/index.js:62-112 | after an accepted sale of q the total stock value falls by q*price |
| Inventory.SaleProfit | pages/index.js:63-112 | after an accepted sale of q the profit total rises by q*(price-costPrice) |
| Inventory.SaleMovesStatistics | pages/index.js:60-112 | a sale keeps the item count, lowers the value by q*price and raises the profit by q*(price-costPrice) |
| Inventory.AddRequest | pages/index.js:75-80 | the item sent to the store has threshold `\|\| 5` and profit 0; every other field is the new item's |
| Inventory.RemoveByIdSpec | pages/index.js:127 | the removal keeps exactly the items with another id, in order |
| Inventory.FilteredItemsSpec | pages/index.js:137-141 | the search keeps exactly the items whose lowercased name, category or sku contains the lowercased term, in order |
| Inventory.EmptySearchKeepsAll | pages/index.js:137-141 | an empty search term keeps every item in order |
| Home.HomePage.constructor | pages/index.js:16-33 | the page starts with no items, an empty search, loading on, and every dialog closed |
| Home.HomePage.ShowAlert | pages/index.js:36-39 | the alert opens with the given title and message |
| Home.HomePage.LoadInventory | pages/index.js:42-53 | loading ends; fetched items replace the list; a failed fetch keeps the list and opens the load-failure alert |
| Home.HomePage.AddItem | pages/index.js:73-87 | the store receives `AddRequest(newItem)`; on success the saved item is appended and the dialog closes; on failure the list stays and the failure alert opens |
| Home.HomePage.UpdateItem | pages/index.js:89-97 | on success the list becomes the id-replaced list; on failure it is unchanged and the failure alert opens |
| Home.HomePage.SellItem | pages/index.js:99-113 | overselling sends nothing, keeps the list, and opens the invalid-operation alert; otherwise the sold item goes to the update and, on success, replaces its id in the list with the alert untouched; on failure the list stays and the update-failure alert opens |
| Home.HomePage.ConfirmDelete | pages/index.js:116-119 | the id is held for deletion and the confirmation opens |
| Home.HomePage.ExecuteDelete | pages/index.js:122-135 | the store is called exactly when an id is pending; with none nothing changes; on success the id's items go, the dialog closes and forgets the id, and the alert is untouched; on failure the list stays, the dialog closes and the failure alert opens |
| Home.HomePage.SetSearchTerm | pages/index.js:18 | the search term becomes the typed text |
| EarlyHome.EarlyHomePage.constructor | toolup-ims/src/pages/index.js:11-20 | the earlier page starts with no items, an empty search, loading on, and the dialog closed |
| EarlyHome.EarlyHomePage.LoadInventory | toolup-ims/src/pages/index.js:39-49 | loading ends; fetched items replace the list; a failed fetch keeps it |
| EarlyHome.EarlyHomePage.AddItem | toolup-ims/src/pages/index.js:51-64 | the store receives `AddRequest(newItem)`; the saved item is appended on success, and nothing changes on failure |
| EarlyHome.EarlyHomePage.UpdateItem | toolup-ims/src/pages/index.js:66-73 | on success the list is the id-replaced list; on failure it is unchanged |
| EarlyHome.EarlyHomePage.SellItem | toolup-ims/src/pages/index.js:75-89 | overselling sends nothing and keeps the list; otherwise the sold item goes to the update, and the list changes only when it succeeds |
| EarlyHome.EarlyHomePage.DeleteItem | toolup-ims/src/pages/index.js:91-98 | items with the id leave the list only after the store succeeds |
| EarlyHome.EarlyHomePage.SetSearchTerm | toolup-ims/src/pages/index.js:13 | the search term becomes the typed text |
| Table.WriteCells | pages/api/lib/googleSheetsService.js:81-92 | a written row holds every value that is not null or undefined; skipped values and cells past the written ones keep the old contents |
| Table.ClearCells | pages/api/lib/googleSheetsService.js:167-170 | clearing blanks the first n cells and keeps the rest and the row length |
| Table.Trimmed | toolup-ims/src/utils/googleSheetsService.js:35 | a row as the API returns it ends at its last non-blank cell; only blanks are dropped |
| Table.TrimmedRows | pages/api/lib/googleSheetsService.js:32 | the rows a range holds for a read and an append: a prefix of the stored rows that ends in a non-blank row, all rows after it being blank in the range |
| Table.FindRow | pages/api/lib/googleSheetsService.js:114 | `findIndex` on the first column: the first row from `from` on whose id cell strictly equals the key, or -1 exactly when there is none |
| Table.FindNaNFails | pages/api/lib/googleSheetsService.js:114 | a NaN id is never found, as `===` makes NaN unequal to itself |
| FixedSheet.HeaderRow | pages/api/lib/googleSheetsService.js:35-45 | the header row holds the ten field names in column order |
| FixedSheet.EncodeRow | pages/api/lib/googleSheetsService.js:81-92 | the row for an item always has ten cells |
| FixedSheet.AppendedCells | pages/api/lib/googleSheetsService.js:81-92 | the appended row holds id and name as given (blank when null or undefined), and each other field or its default: '' for text, 0 for numbers, 5 for the threshold |
| FixedSheet.DecodeRow | pages/api/lib/googleSheetsService.js:54-65 | a decoded item has exactly the ten properties, each decoded from its own column |
| FixedSheet.StartIndex | pages/api/lib/googleSheetsService.js:48 | row 1 is skipped exactly when its first cell is "id" |
| FixedSheet.DecodeRows | pages/api/lib/googleSheetsService.js:54-65 | one decoded item per row, in order |
| FixedSheet.ItemsOf | pages/api/lib/googleSheetsService.js:48-54 | every row after the start index is an item |
| FixedSheet.BlankItemFields | pages/api/lib/googleSheetsService.js:54-65 | a blank row reads as undefined id and name, '' for text, 0 for prices, counts and profit, and 5 for the threshold |
| FixedSheet.ReadBackFields | pages/api/lib/googleSheetsService.js:54-92 | each property read back after a save is the item's value passed through the write default and then the read default |
| FixedSheet.DecodeEncode | pages/api/lib/googleSheetsService.js:54-92 | decode(encode(item)) is the item exactly when the item has the ten properties, an id and name that are not NaN, truthy or empty text, numeric prices, whole counts and a non-zero threshold |
| FixedSheet.OrKeepsText | pages/api/lib/googleSheetsService.js:61-83 | text survives `\|\| ''` exactly when it is truthy or already '' |
| FixedSheet.ParseFloatKeeps | pages/api/lib/googleSheetsService.js:58-85 | a price survives `parseFloat(v \|\| 0)` exactly when it is a number |
| FixedSheet.ParseIntKeeps | pages/api/lib/googleSheetsService.js:59-88 | a count survives `parseInt(v \|\| 0)` exactly when it is a whole number; with the threshold's default 5 it must also be non-zero |
| FixedSheet.SameColumnsSameItem | pages/api/lib/googleSheetsService.js:54-65 | rows that agree on columns A to J read as the same item |
| FixedSheet.ClearedRowReadsBlank | pages/api/lib/googleSheetsService.js:54-170 | a cleared row reads as the blank item |
| FixedSheet.ItemsOfAppend | pages/api/lib/googleSheetsService.js:48-92 | appending a row to a non-empty sheet appends its item to the read |
| FixedSheet.DecodeRowsAppend | pages/api/lib/googleSheetsService.js:54 | decoding distributes over appending a row |
| FixedSheet.SaveThenRead | pages/api/lib/googleSheetsService.js:54-101 | after a save the read gains the stored form of the item at the end, and the item itself when it round-trips |
| FixedSheet.DeleteKeepsItemCount | pages/api/lib/googleSheetsService.js:54-174 | clearing a row other than the header, with the sheet's non-blank last row after it, drops no row and keeps the number of items read; the cleared row reads as the blank item |
| FixedSheet.ClearedBeforeLastRow | pages/api/lib/googleSheetsService.js:149-179 | when the sheet's last row holds a value and is not the one cleared, the delete drops no row |
| FixedSheet.DeleteLastRowShrinksRead | pages/api/lib/googleSheetsService.js:20-174 | clearing the last data row drops it, with any blank rows before it, so the next read has at least one item fewer, and exactly one fewer when the row above holds a value |
| FixedSheet.Sheet.constructor | pages/api/lib/googleSheetsService.js:32 | the sheet holds the given rows |
| FixedSheet.Sheet.GetAllItems | pages/api/lib/googleSheetsService.js:23-70 | an empty sheet gets the header row and reads as no items; otherwise the sheet is unchanged and the result is its items |
| FixedSheet.Sheet.SaveItem | pages/api/lib/googleSheetsService.js:72-101 | the encoded row is appended and the item is returned as given |
| FixedSheet.Sheet.UpdateItem | pages/api/lib/googleSheetsService.js:103-147 | the first matching row, header included, is overwritten and nothing else changes; without a match the item is appended instead |
| FixedSheet.Sheet.DeleteItem | pages/api/lib/googleSheetsService.js:149-179 | an unknown id is not found and the sheet is unchanged; otherwise columns A to J of the first matching row are cleared, the rows left blank at the end of the range stop being data, and `{id}` is returned |
| KeyedSheet.Columns | toolup-ims/src/utils/googleSheetsService.js:6 | a read of `A:J` gives each row's first ten cells unchanged |
| KeyedSheet.Headers | toolup-ims/src/utils/googleSheetsService.js:35-110 | the header row read through `A:J` has at most ten cells |
| KeyedSheet.DecodeRow | toolup-ims/src/utils/googleSheetsService.js:38-51 | the `forEach` loop builds exactly the record of the row under the headers |
| KeyedSheet.RecordOfKeys | toolup-ims/src/utils/googleSheetsService.js:40-49 | the decoded object's properties are exactly the header names |
| KeyedSheet.RecordOfSpec | toolup-ims/src/utils/googleSheetsService.js:40-49 | every header names a property; a repeated header keeps the decode of its last column |
| KeyedSheet.RecordOfDistinct | toolup-ims/src/utils/googleSheetsService.js:40-49 | under distinct headers, each property is the decode of its own column |
| KeyedSheet.BlankCellDecodes | toolup-ims/src/utils/googleSheetsService.js:42-48 | a blank cell reads as 0 under a numeric header, so a blank threshold reads as 0, and as '' otherwise |
| KeyedSheet.SameColumnsSameRecord | toolup-ims/src/utils/googleSheetsService.js:40-49 | rows that agree on the header columns decode alike |
| KeyedSheet.ItemsOf | toolup-ims/src/utils/googleSheetsService.js:22-56 | a sheet of at most one row reads as no items; otherwise each row after the first is read in order under the headers |
| KeyedSheet.WithId | toolup-ims/src/utils/googleSheetsService.js:63-66 | an own `id` property is kept, whatever its value; without one, the fresh uuid is added |
| KeyedSheet.SavedRow | toolup-ims/src/utils/googleSheetsService.js:80 | one cell per header holding the item's property, or '' when it is falsy |
| KeyedSheet.SavedFieldReadsBack | toolup-ims/src/utils/googleSheetsService.js:42-80 | a saved value reads back unchanged exactly when its header's decoding keeps it |
| KeyedSheet.SaveThenReadRecord | toolup-ims/src/utils/googleSheetsService.js:38-80 | under distinct headers, each property of a saved item reads back unchanged exactly when its decoding keeps it |
| KeyedSheet.UpdatedRow | toolup-ims/src/utils/googleSheetsService.js:120 | one cell per header holding the item's property verbatim, so 0 stays 0; only undefined becomes '' |
| KeyedSheet.UpdatedFieldReadsBack | toolup-ims/src/utils/googleSheetsService.js:42-120 | a value written by an update reads back unchanged exactly when its header's decoding keeps it |
| KeyedSheet.ItemsOfAppend | toolup-ims/src/utils/googleSheetsService.js:38-90 | appending a row appends its record to the items read |
| KeyedSheet.ItemsOfRewrite | toolup-ims/src/utils/googleSheetsService.js:38-130 | rewriting a data row changes only that row's item among the items read |
| KeyedSheet.LastColumn | toolup-ims/src/utils/googleSheetsService.js:162 | `String.fromCharCode(65 + n - 1)` is a column letter exactly when 1 ≤ n ≤ 26, and it is then the n-th letter |
| KeyedSheet.ClearedRowReadsBlank | toolup-ims/src/utils/googleSheetsService.js:159-163 | a row cleared across the header columns reads like an empty row |
| KeyedSheet.DeleteAsWrittenReachesHeaders | toolup-ims/src/utils/googleSheetsService.js:150-162 | a sheet on which the id is found, so the delete as written reaches line 162 |
| KeyedSheet.Sheet.constructor | toolup-ims/src/utils/googleSheetsService.js:31 | the sheet holds the given rows |
| KeyedSheet.Sheet.GetAllItems | toolup-ims/src/utils/googleSheetsService.js:22-56 | the loop over the rows returns exactly the items read, and the sheet is unchanged |
| KeyedSheet.Sheet.SaveItem | toolup-ims/src/utils/googleSheetsService.js:58-97 | without a header row the save throws a TypeError and nothing changes; otherwise the row in header order is appended and the item with its id is returned |
| KeyedSheet.Sheet.UpdateItem | toolup-ims/src/utils/googleSheetsService.js:99-137 | an id missing below the header is not found and nothing changes; otherwise only that row is rewritten with the header-ordered values, and the item is returned |
| KeyedSheet.Sheet.DeleteItemAsWritten | toolup-ims/src/utils/googleSheetsService.js:139-170 | nothing is ever cleared: a missing id is not found, and a found id throws a ReferenceError for `headers` |
| KeyedSheet.Sheet.DeleteItem | toolup-ims/src/utils/googleSheetsService.js:139-170 | an id missing below the header is not found; otherwise columns A up to the last header of that row are cleared, the rows left blank at the end of the range stop being data, and `{id, deleted: true}` is returned |
| KeyedSheet.DeleteLastRowShrinksRead | toolup-ims/src/utils/googleSheetsService.js:22-170 | clearing the last data row: if it holds nothing past the header columns it is dropped and the next read has fewer items; otherwise the row stays and the count is kept |
| Dashboard.FirstIndex | toolup-ims/src/components/Dashboard.js:99-105 | the position of the first sale of an item |
| Dashboard.GroupSales | toolup-ims/src/components/Dashboard.js:98-110 | the loop builds the grouping fold's dictionary |
| Dashboard.GroupKeys | toolup-ims/src/components/Dashboard.js:99-105 | the dictionary has one entry per distinct item id with a sale, and its key list holds each such id once |
| Dashboard.GroupOrder | toolup-ims/src/components/Dashboard.js:99-105 | the keys are listed in first-seen order: each key has a sale, and an earlier key's first sale comes before a later key's |
| Dashboard.GroupEntries | toolup-ims/src/components/Dashboard.js:99-110 | each entry carries the name of the item's first sale and the sums of its sales' quantities and totals |
| Dashboard.NoSalesNoSums | toolup-ims/src/components/Dashboard.js:106-108 | an id without sales has zero sums |
| Dashboard.Values | toolup-ims/src/components/Dashboard.js:113 | the values of the dictionary in key order |
| Dashboard.Entries | toolup-ims/src/components/Dashboard.js:99-113 | one value per grouped id, being its first name and sums |
| Dashboard.Insert | toolup-ims/src/components/Dashboard.js:114 | inserting into a list sorted by quantity keeps it sorted and adds exactly that entry |
| Dashboard.SortByQuantity | toolup-ims/src/components/Dashboard.js:114 | the sort is a permutation sorted by non-increasing quantity |
| Dashboard.TopFive | toolup-ims/src/components/Dashboard.js:115 | at most five entries |
| Dashboard.TopFiveSpec | toolup-ims/src/components/Dashboard.js:114-115 | the top list has min(5, n) entries, sorted by quantity, drawn from the input |
| Dashboard.TopFiveOutsells | toolup-ims/src/components/Dashboard.js:114-115 | every entry left out sold no more than any entry kept |
| Dashboard.TopSellingItems | toolup-ims/src/components/Dashboard.js:96-116 | at most five entries, each a grouped seller of the sales |
| Dashboard.CountByCategory | toolup-ims/src/components/Dashboard.js:214-220 | the loop builds the category fold's dictionary |
| Dashboard.FirstFiled | toolup-ims/src/components/Dashboard.js:214-220 | the position of the first item filed under a category |
| Dashboard.FirstFiledOfPrefix | toolup-ims/src/components/Dashboard.js:214-220 | filing one more item keeps the first position of every category already filed |
| Dashboard.CountsKeys | toolup-ims/src/components/Dashboard.js:214-220 | the keys are distinct and are exactly the categories filed, with a blank category filed as 'Uncategorized' |
| Dashboard.CountsOrder | toolup-ims/src/components/Dashboard.js:214-220 | the keys are listed in first-seen order: each key is filed, and an earlier key's first item comes before a later key's |
| Dashboard.NewCategoryFiledLast | toolup-ims/src/components/Dashboard.js:214-218 | a category the last item files for the first time has its first position at that item |
| Dashboard.CountsValues | toolup-ims/src/components/Dashboard.js:214-220 | each category's count is the number of items filed under it |
| Dashboard.NoneInCategory | toolup-ims/src/components/Dashboard.js:217-218 | a category with no items counts zero |
| Dashboard.CountsTotal | toolup-ims/src/components/Dashboard.js:214-220 | the counts add up to the number of items |
| AddItemModal.WithInput | toolup-ims/src/components/AddItemModal.js:29-32 | editing an input sets exactly that input's value |
| AddItemModal.ChosenSku | toolup-ims/src/components/AddItemModal.js:51 | a typed SKU is kept unchanged; an empty one is replaced by a generated, non-empty SKU |
| AddItemModal.SkuPartsSpec | toolup-ims/src/components/AddItemModal.js:68-69 | the prefix is 'ITM' for an empty category, else the category's first up to three characters uppercased; the middle is the name's first up to three characters uppercased |
| AddItemModal.SkuNumberRange | toolup-ims/src/components/AddItemModal.js:70 | a draw in [0, 1) gives a number from 1000 to 9999 |
| AddItemModal.SkuDigitsSpec | toolup-ims/src/components/AddItemModal.js:70-71 | the number is written as four digits that read back as the number |
| AddItemModal.GeneratedSkuShape | toolup-ims/src/components/AddItemModal.js:67-72 | a generated SKU is the prefix, a dash, the name part, a dash and the four digits |
| AddItemModal.DefaultThresholdIsFive | toolup-ims/src/components/AddItemModal.js:12-55 | an untouched threshold is submitted as the number 5 |
| AddItemModal.BlankNumbersAreNaN | toolup-ims/src/components/AddItemModal.js:52-55 | an empty number field is submitted as NaN |
| AddItemModal.DigitNumbers | toolup-ims/src/components/AddItemModal.js:52-54 | a price or quantity typed as digits is submitted as the number they denote |
| AddItemModal.AddItemDialog.constructor | toolup-ims/src/components/AddItemModal.js:5-18 | the dialog starts with the initial form and no upload running |
| AddItemModal.AddItemDialog.HandleChange | toolup-ims/src/components/AddItemModal.js:28-33 | editing a text input changes that input only |
| AddItemModal.AddItemDialog.HandleFile | toolup-ims/src/components/AddItemModal.js:23-27 | choosing a file changes the image only |
| AddItemModal.AddItemDialog.HandleSubmit | toolup-ims/src/components/AddItemModal.js:36-65 | a failed upload saves nothing and keeps the form; otherwise the built item is saved, with the upload's address when a file was chosen, and the form resets; no upload is running afterwards |
| SalesApi.SaleRow | toolup-ims/src/components/pages/api/sales/index.js:39-47 | the sale row has seven cells |
| SalesApi.RecordedSaleReadsBack | toolup-ims/src/components/pages/api/sales/index.js:39-88 | a recorded sale reads back with its id, the item's id and name, and its quantity, total, profit and date |
| SalesApi.SaleAmounts | toolup-ims/src/components/pages/api/sales/index.js:27-28 | total is price×quantity and profit is (price−costPrice)×quantity, so profit is total minus cost |
| SalesApi.UpdatedItem | toolup-ims/src/components/pages/api/sales/index.js:52-56 | the sold item's quantity is lowered, its profit (or 0) raised by the sale's profit, and every other property kept |
| SalesApi.UpdatedItemSpec | toolup-ims/src/components/pages/api/sales/index.js:52-56 | quantity falls by exactly the quantity sold and may go negative; profit rises by exactly the sale's profit |
| SalesApi.SalesOf | toolup-ims/src/components/pages/api/sales/index.js:81-88 | the first row is always dropped as a header, and each other row decodes in order |
| SalesApi.SalesOfAppend | toolup-ims/src/components/pages/api/sales/index.js:34-81 | a recorded row is listed at the end, unless the sheet was empty and it became the header |
| SalesApi.ListedSpec | toolup-ims/src/components/pages/api/sales/index.js:89-94 | without both bounds every sale is listed; otherwise exactly the sales whose date lies within both bounds inclusive, in order |
| SalesApi.SalesSheet.constructor | toolup-ims/src/components/pages/api/sales/index.js:78 | the sales sheet holds the given rows |
| SalesApi.Handle | toolup-ims/src/components/pages/api/sales/index.js:20-103 | with an item update that can reach the items endpoint: a POST without an item or with a falsy quantity is a 400 that records nothing; an accepted POST appends the sale row and answers 201 with the updated item, total, profit and date, or a 500 carrying the update's error, with the row kept; GET answers 200 with the listed sales; other methods get 405; a failing sheet is a 500 |
| SalesApi.RelativeItemUpdate | toolup-ims/src/utils/inventoryService.js:2-27 | the item update's URL `/api/items/<id>` has no scheme, whatever the id |
| SalesApi.HandleAsWritten | toolup-ims/src/components/pages/api/sales/index.js:20-103 | as written, no request is answered 201: an accepted POST appends the sale row and then answers 500 with the TypeError thrown by the server-side fetch; the other branches are as in Handle |
| Js.Times | toolup-ims/src/components/pages/api/sales/index.js:27 | the product is a number exactly when both operands convert to numbers, and then it is their product |
| Js.Minus | toolup-ims/src/components/pages/api/sales/index.js:28 | the difference is a number exactly when both operands convert to numbers, and then it is their difference |
| Js.Plus | toolup-ims/src/components/pages/api/sales/index.js:55 | the sum is a number exactly when both operands convert to numbers, and then it is their sum |
| InventoryApi.NewItemOf | pages/api/inventory.js:20-24 | a truthy supplied id is kept, else the fresh uuid is used; the other properties are the body's |
| InventoryApi.PostHasId | pages/api/inventory.js:20-24 | a POST always stores the item under a truthy id |
| InventoryApi.Route | pages/api/inventory.js:13-45 | GET reads, POST creates, PUT replaces, DELETE with a truthy id removes; DELETE without one is a 400; other methods are 405 |
| InventoryApi.Handle | pages/api/inventory.js:11-50 | each action's answer and its effect on the sheet: 200 with the items, 201 with the created item, 200 with the updated item, 200 with the message and id; a 400 or 405 leaves the sheet untouched; a failure or a missing id is a 500 |
| ItemsApi.Route | toolup-ims/pages/api/items/index.js:5-20 | GET reads; POST with a truthy name creates, and without one it is a 400; other methods are 405 |
| ItemsApi.Handle | toolup-ims/pages/api/items/index.js:4-25 | 200 with the items for GET; a named POST saves and answers 201 with the saved item; refusals leave the sheet untouched; thrown errors are 500 |
| JsText.ParseIntOfDigits | src/utils/inventoryService.js:12 | `parseInt` of a digit string is the number the digits denote |
| JsText.ParseIntOfPaddedInt | src/utils/inventoryService.js:21 | `parseInt` reads a zero-padded non-negative number back as itself |
| JsText.PadStart | src/utils/inventoryService.js:21 | padding keeps the text at the end and reaches at least the width |
| JsText.ToLower | pages/index.js:138-140 | lowercasing keeps the length |
| JsText.ToUpper | toolup-ims/src/components/AddItemModal.js:68-69 | uppercasing keeps the length |
| JsText.Take | toolup-ims/src/components/AddItemModal.js:68-69 | `substring(0, n)` is the prefix of length min(n, length) |

## Left out

Values and formats:

- `null` in a JSON body is treated as `undefined`, and object keys are values, not strings.
- Numbers are exact reals: float rounding, `toFixed`, `Infinity` and the other IEEE values are not modelled.
- `parseInt` and `parseFloat` read signed decimal prefixes only. Hexadecimal, exponents and `Infinity` text are not modelled.
- Case mapping covers ASCII letters only.
- Js.Times, Js.Minus, Js.Plus: convert only numbers and booleans. String-to-number coercion by `Number()` and string concatenation by `+` are not modelled.
- A request body that is not an object is not modelled.
- The sheet stores the values written and not the formatted strings a read returns, so `USER_ENTERED` parsing and `FORMATTED_VALUE` output are not modelled. A row a write leaves with trailing blanks is not trimmed.

Concurrency and I/O:

- The keyed adapter does not await its append and update calls (lines 83 and 123 of toolup-ims/src/utils/googleSheetsService.js), and requests can race. The model applies each call at once and in order.
- The sheet client, its authentication and the fetch wrappers of both client services are left as outcomes passed in: a failure message or a success flag.
- SalesApi.HandleAsWritten: the sales POST's item update is a fetch of a relative URL made on the server, so the 201 branch is unreachable as written; the TypeError's message is the parameter `fetchError`. The import path `'../../../utils/inventoryService'` of the sales handler is read as toolup-ims/src/utils/inventoryService.js.
- SalesApi.Handle: the corrected item update itself is not modelled; its outcome is the parameter `updateError`, the error it throws or none.
- SalesApi.InRange: `new Date(v)` is the parameter `time` for every value but `undefined`, which is always an invalid date.
- Dates are integers, obtained through `time`; the default date "now" is a parameter.
- `uuidv4()`, `Math.random()` and the image upload are parameters.

Behaviours not captured:

- InventoryService.WithDefaultId: `saveItem` writes the generated id into the caller's object in place; the model returns the updated item as a value.
- Dashboard.Values: `Object.values` lists integer-like keys first in JavaScript; the model keeps insertion order for every key.
- Dashboard.CountsKeys: `Object.entries` (toolup-ims/src/components/Dashboard.js:214) likewise lists integer-like category keys first; the model keeps insertion order for every key, which is the order CountsOrder states. A category "__proto__" is never stored in JavaScript, so it is missing from the entries; the model lists it.
- Dashboard.CountsValues: the accumulator `{}` of the category reduce (toolup-ims/src/components/Dashboard.js:214-220) inherits the names of `Object.prototype`, and the model's empty map does not. For a category "toString" or "constructor" the inherited function is truthy, so the count is not reset to 0 and `++` stores NaN; a second such item resets it to 1. The model counts such a category like any other; CountsTotal and CountsKeys rest on the same reading.
- Dashboard.CountsTotal: the counts add up to the number of items only when no category is an `Object.prototype` name, for the reason given under CountsValues.
- Dashboard.GroupEntries: the grouping reduce over item ids (toolup-ims/src/components/Dashboard.js:99-109) has the same inherited names; for an id such as "toString" JavaScript adds the sums onto the inherited function and leaves the id out of `Object.values`. The model groups such an id like any other; GroupKeys and TopSellingItems rest on the same reading.
- Inventory.Item: `name` is a string, so an item without a name is not modelled. The keyed adapter's read yields one when the sheet has no "name" header, and the page's search then throws on `item.name.toLowerCase()` (pages/index.js:138).
- FixedSheet.Sheet.constructor, KeyedSheet.Sheet.constructor: an initial sheet is taken as the service holds it; trailing blank rows given to the constructor are kept until a delete trims them.
- FixedSheet.DeleteKeepsItemCount: a delete whose id matches the "id" header cell (`DELETE /api/inventory?id=id`) clears the header row, and the next read then gains a blank item; the lemma leaves that case out, while the delete itself models it.
- EarlyHome.EarlyHomePage.SellItem: the browser `alert` the earlier page shows on overselling (toolup-ims/src/pages/index.js:77) is not modelled; that page has no alert state.
- Dashboard.SortByQuantity: the order among equal quantities is not stated, as the model does not claim `Array.prototype.sort` stability.
- Left out of the dashboard: its average price, the sales chart and the date-range computation. The low-stock list and total value it shows are Inventory.LowStockList and Inventory.TotalValue.
- Left out of the page: the `createdAt` stamp added on save, the statistics display and the render-only components.
- Left out of the dialog: the `isOpen` and `onClose` rendering.
- Left out entirely: the upload handlers, the Drive service, the stub and delegating API routes and the config files.
- In `saveItemToSheet`, the default header list is unreachable. With row 1 empty the API omits `values`, and `values[0]` throws first, so the model raises a TypeError.

Behaviour of the source worth noting:

- The fixed adapter's update also searches the header row, as its `findIndex` starts at row 0.
- The keyed adapter's read decodes a blank threshold as 0, not 5.

## Findings

| source | as written | input that shows it | evidently intended | confidence | as-written member | corrected member |
|---|---|---|---|---|---|---|
| toolup-ims/src/utils/googleSheetsService.js:162 | `deleteItemFromSheet` builds its clear range from `headers`, which is not declared in that function, so every delete of an existing id throws a ReferenceError and clears nothing | the sheet `[[id, name], [TU001, Drill]]` with id `TU001` (KeyedSheet.DeleteAsWrittenReachesHeaders) | clear columns A to the letter of the last header in the matching row and return `{id, deleted: true}` | not executed | KeyedSheet.Sheet.DeleteItemAsWritten | KeyedSheet.Sheet.DeleteItem |
| toolup-ims/src/components/pages/api/sales/index.js:58 | the sales POST awaits `updateItem` from the browser's client service, whose `fetch` of the relative URL `/api/items/<id>` (toolup-ims/src/utils/inventoryService.js:2, 27) is rejected on the server with a TypeError, after the sale row is appended | any accepted POST, such as item `{id: "TU001", price: 10, costPrice: 6, quantity: 3}` with quantity 1 (SalesApi.RelativeItemUpdate) | update the item through the items endpoint at an absolute URL, or through the store directly, and answer 201 | not executed | SalesApi.HandleAsWritten | SalesApi.Handle |
