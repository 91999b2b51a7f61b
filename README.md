# Product button ids and the test product catalog

This project models the test-data module of a browser-driven UI test suite for
a demo web shop. It covers the one part of that suite with logic of its own.
That part has two pieces.

- **The product button id parser** (`ProductButtonId`, `ButtonId.dfy`). Every
  product button on the listing and cart pages has a DOM id
  `add-to-cart-<base>` or `remove-<base>`. `parseProductBtnId` runs the anchored
  regular expression `^(?:(add-to-cart-)|(remove-))(\S+)` on such an id. It
  returns `{canAdd, canRemove, btnCssId, baseCssId}`. When `exec` finds no
  match it returns `null`, and the array destructuring then throws a TypeError.
  The model has three layers:
  - `ExecButtonIdRegex` gives the three capture groups, with `None` for an
    undefined group.
  - `ParseProductBtnId` compares the groups with the prefix constants, as the
    source does.
  - The thrown TypeError is the value `DestructuringTypeError`.
  `DescribesButtonId` is a separate, declarative reading of the expression:
  the flagged prefix, then a non-empty base without whitespace, then either the
  end of the id or a whitespace character. The parser is proved to agree with
  it in both directions.
- **The static catalog** (`ProductCatalog`, `Catalog.dfy`).
  - `ProductEntries` holds the six properties of `baseTestProductData.products`
    in literal order.
  - `ObjectOf` builds the object from them. A later property with the same key
    overwrites an earlier one.
  - `Values` models `Object.values`. None of the keys is an array index, so
    the order is the literal's order.
  - `BaseIds`, `AddIds` and `RemoveIds` are the three `.map` projections.
  - The predicate `WellFormedCatalog` says three things:
    - every entry is stored under its own base id;
    - the keys are distinct;
    - each button id is its prefix followed by the base id, and each base id
      is a non-empty run of non-whitespace characters.
  The general lemmas assume this predicate. `ProductEntriesWellFormed` proves
  that the hand-written table satisfies it.

JavaScript's `\s` is modelled as the ECMAScript WhiteSpace and LineTerminator
characters. The source works on UTF-16 code units and the model works on
Unicode scalar values, so the model's inputs are the strings made of scalar
values. A JavaScript string holding a lone surrogate (which `\S` matches) is
outside the model. For every other string the two readings agree, because every
whitespace character lies in the Basic Multilingual Plane.

`Values` lists the values of the entries in order. That is what `Object.values`
gives only when the keys are distinct: with a repeated key JavaScript keeps the last
value, in the position of the first occurrence. Every lemma about `Values`
assumes `WellFormedCatalog`, which includes distinct keys, and
`ProductEntriesWellFormed` proves that the real table has distinct keys.

What the code does at the edges:
- Parsing also fails when the id is a bare prefix, or when the prefix is
  directly followed by whitespace (`ParseFailureCases`).
- The base id is the longest run of non-whitespace characters after the prefix.
  Everything from the first whitespace character on is dropped
  (`ParsePrefixedId`).
- An add id whose base starts with `remove-` still parses as an add button. The
  expression is anchored and tries `add-to-cart-` first, so `ParseAddToCartId`
  holds for every base id, including ones that begin with either prefix.
  Separately, `BaseIdsAvoidPrefixes` proves that no catalog base id starts
  with a prefix.

## Model

| member | source | states |
|---|---|---|
| ProductButtonId.NonWhitespaceRun | src/testData.js:29 | greedy `\S+`: the result is a prefix of the input, contains no whitespace, and is followed by whitespace or the end of the input (it is the maximal run) |
| ProductButtonId.ExecButtonIdRegex | src/testData.js:29 | `exec` yields no match exactly when neither alternative can match; on a match exactly one of groups 1 and 2 is defined and holds its literal prefix, and group 3 is a non-empty maximal whitespace-free run right after that prefix |
| ProductButtonId.ParseProductBtnId | src/testData.js:26-38 | the parse succeeds exactly when one of the prefixes is followed by a non-whitespace character; on success `btnCssId` is the input unchanged and exactly one of `canAdd`/`canRemove` is true |
| ProductButtonId.ParseSound | src/testData.js:29-36 | every record the parser returns satisfies the declarative reading of the regular expression |
| ProductButtonId.MaximalRunUnique | src/testData.js:29 | two whitespace-free runs at the start of a string, each ending at whitespace or at the end, are equal |
| ProductButtonId.DescriptionUnique | src/testData.js:29-31 | at most one record describes an id: only one alternative can match at position 0, and the base is determined |
| ProductButtonId.ParseComplete | src/testData.js:29-36 | every record the declarative reading allows is what the parser returns |
| ProductButtonId.ParseCharacterized | src/testData.js:26-38 | the parser returns `Parsed(p)` if and only if `p` describes the id |
| ProductButtonId.ParsePrefixedId | src/testData.js:29-36 | prefix + non-empty whitespace-free base + (nothing, or whitespace and anything) parses to that prefix's flag, that base, and the whole input as `btnCssId`; the rest is dropped, with no trimming or case folding |
| ProductButtonId.ParseAddToCartId | src/testData.js:29-36 | `add-to-cart-` + b parses to `canAdd = true`, `canRemove = false`, `baseCssId = b`, `btnCssId` = the input |
| ProductButtonId.ParseRemoveId | src/testData.js:29-36 | `remove-` + b parses to `canAdd = false`, `canRemove = true`, `baseCssId = b`, `btnCssId` = the input |
| ProductButtonId.ParseFailureCases | src/testData.js:27-29 | the parser throws if and only if the id starts with neither prefix, is only a prefix, or has whitespace right after the prefix |
| ProductCatalog.ObjectOf | src/testData.js:48-91 | the keys of the object built from the literal are exactly the keys of its properties |
| ProductCatalog.ProductEntriesWellFormed | src/testData.js:49-90 | each entry of the hand-written table is stored under its own base id, has add/remove ids equal to prefix + base id, and has a non-empty whitespace-free base id; the keys are distinct |
| ProductCatalog.LeadingBaseIdsAccepted | src/testData.js:9-11 | the first three base ids are non-empty and contain no whitespace |
| ProductCatalog.TrailingBaseIdsAccepted | src/testData.js:12-14 | the last three base ids are non-empty and contain no whitespace |
| ProductCatalog.FirstCharRulesOutPrefix | src/testData.js:17-18 | an id whose first character is not `a` does not start with `add-to-cart-`, and one whose first character is not `r` does not start with `remove-` |
| ProductCatalog.BaseIdsAvoidPrefixes | src/testData.js:39-44 | no catalog base id starts with `add-to-cart-` or `remove-` |
| ProductCatalog.BaseIdArrayIsButtonIdBases | src/testData.js:8-15 | `baseIdArray` equals the stand-alone `buttonIdBases` list, element by element and in order |
| ProductCatalog.ObjectLookup | src/testData.js:48-91 | in a well-formed catalog, the object maps each entry's key to that entry's product, whose base id is the key |
| ProductCatalog.ObjectKeyedByBaseId | src/testData.js:48-91 | the object's keys are exactly the elements of the base id array, and each key maps to the product with that base id |
| ProductCatalog.ProjectionsAligned | src/testData.js:93-98 | the base, add and remove id arrays have one position per entry, and position k of the add/remove arrays is the prefix + position k of the base array |
| ProductCatalog.RoundTrip | src/testData.js:95-98 | parsing the add id at position k gives an add button for base id k, and parsing the remove id gives a remove button for base id k |
| ProductCatalog.ButtonIdsDistinct | src/testData.js:53-89 | add ids are pairwise distinct, remove ids are pairwise distinct, and no add id equals a remove id |
| ProductCatalog.TestProductDataRoundTrip | src/testData.js:102-108 | every id of the exported `addIdArray`/`removeIdArray` parses back to the flag and base id of the product at the same position of `productArray` |
| ProductCatalog.TestProductDataAligned | src/testData.js:102-108 | the exported arrays have six positions each, the products object is keyed by exactly the base ids, and key k maps to position k of `productArray` |

## Left out

- Product prices (`price: 29.99`, …) are left out. They are JavaScript floating-point numbers, and nothing in this module computes with them.
- The user names and the password constant (src/testData.js:1-7) are left out. They are plain data that only the login steps use, and those steps drive a browser.
- All browser-driver code is left out: login, menu, page-arrival waits, page queries, the cart badge counter, and the price-text conversion `Number(text.replace(/\$/g, ""))`. These are I/O against a remote page, with timeouts and floating point.
- The test cases are left out. They assert live page state. The duplicated id lists in src/index.js and src/utils.js are left out too.
- The exact TypeError message is not modelled. A failed parse is the single value `DestructuringTypeError`.
