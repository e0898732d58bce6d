# Facet extraction from Sephora and Level Shoes pages

This project models the logic at the centre of two small scraping tools and
proves properties of that model in Dafny.

- **Sephora brand extractor** (`sephora.py`). The tool takes a saved product
  listing page, cuts every `{...}` / `[...]` substring out of every script
  tag and parses it as JSON. It then searches the parsed value recursively
  for the brand facet: a dict with `"attributeId": "c_brand"` and a list of
  `"values"`. The first candidate whose facet holds at least one valid
  `{label: str, hitCount: int}` item becomes the result. Rows come out
  deduplicated by label (first wins), under the headers `Marka` and
  `Urun Adedi`. When no candidate has any valid item, the result is
  "nothing found".
- **Level Shoes designer extractor** (`level_streamlit_app2.py`). The tool
  reads the `__NEXT_DATA__` document of a listing page and follows
  `props.pageProps.__APOLLO_STATE__.ROOT_QUERY` through dict lookups that
  default to `{}`. It picks the product-list entry by key, then the facet
  whose key is `brand` or whose label is `designer`. The result is either
  the CSV rows `['Designer', 'Count']` plus one `[name, count]` per usable
  option, or one of eight Turkish error and warning messages. The URL field
  is checked before anything is fetched.

Modules:

| file | module | contents |
|---|---|---|
| `json_model.dfy` | `JsonModel` | JSON values as Python holds them. Dict lookup, `.get` with a default, what a `for` loop visits, truthiness. |
| `text.dfy` | `Text` | `startswith`, the substring test `in`, ASCII `lower`. |
| `sephora_search.dfy` | `SephoraSearch` | `find_brands_in_json`, and a pre-order reference definition it is proved equal to. |
| `sephora_scan.dfy` | `SephoraScan` | Item validation, the first-wins merge, and the nested scan over scripts and candidates as methods with loops, each proved against a specification function. |
| `level_designers.dfy` | `LevelDesigners` | The body of `extract_designers_from_url` once the page is fetched. Facet selection and row building are loops. |
| `level_app.dfy` | `LevelApp` | The URL acceptance rule of the extract button. |

Modelling decisions:

- Every `AttributeError` or `TypeError` that the Level body can raise is a
  `Raised` value. Examples are `.get` on a list, iterating a number, and
  `.lower()` on a non-string label. The handler on
  level_streamlit_app2.py lines 97-99 turns all of them into the
  `StructureChanged` message.
- `json.loads` keeps the last value of a repeated key in an object. The
  model's `Get` takes the first binding. The two agree on objects without
  repeated keys, and those are the only ones a `JObj` stands for.
- Python's `isinstance(x, int)` accepts `True` and `False`. So a boolean
  `hitCount` is a valid Sephora item here, as it is in the source
  (`JsonModel.IsPyInt`). A float `hitCount` is not.
- In the Sephora inner loop, the merge into `brands_data` and the `break`
  (sephora.py lines 117-129) happen straight after the candidate's rows are
  built. The model returns those rows from `ScanCandidates` and merges them
  in `ExtractBrands`. Nothing happens in between, so the two orders agree.
  Because the scan stops at the first hit, `brands_data` is always empty
  when the merge runs.
- The flag `found_json_in_this_script` (sephora.py lines 84 and 98) is
  written but never read, so the model has no such variable.
- The broader design of these tools also describes other behaviour:
  resolving `"$62"`-style references, a flat-regex fallback for escaped
  text, dropping a `"No"` sentinel label, and a Latin-1 fallback when
  decoding the upload. `sephora.py` does none of this, and the model
  follows `sephora.py`.
- Counts are not checked for sign. A negative `hitCount` is kept, as in the
  source.

## Model

| member | source | states |
|---|---|---|
| JsonModel.Get | sephora.py:18-20 | Dict lookup: absent exactly when no pair has the key; otherwise the value of the first pair with that key. |
| JsonModel.DictGet | level_streamlit_app2.py:49-50 | `.get(key, default)` raises exactly on a non-dict. It gives the stored value when the key is present and the default when it is absent. |
| JsonModel.KeyValues | level_streamlit_app2.py:52 | Iterating a dict visits its keys, as strings, in insertion order, one per entry. |
| JsonModel.CharValues | level_streamlit_app2.py:52 | Iterating a string visits its characters, each as a one-character string. |
| JsonModel.TruthyIterable | level_streamlit_app2.py:79 | For a list, dict or string, being truthy is the same as giving a loop at least one element. |
| Text.Contains | level_streamlit_app2.py:56 | `sub in s` holds exactly when `sub` occurs in `s` at some index. |
| Text.ShortNeverContains | level_streamlit_app2.py:52-56 | A string shorter than the searched text neither starts with it nor contains it. |
| Text.Lower | level_streamlit_app2.py:67 | Lower-casing keeps the length and maps every character through the ASCII case map. |
| Text.LowerCharMatches | level_streamlit_app2.py:67 | A character lower-cases to a lower-case letter exactly when it is that letter in either case. |
| Text.LowerMatchesWord | level_streamlit_app2.py:67 | A string lower-cases to a lower-case word exactly when it has the word's length and each character is the word's letter in either case. |
| SephoraSearch.FirstBlockIsEarliest | sephora.py:15-33 | First-block selection gives nothing exactly when no node is a brand block; otherwise it gives the values of the earliest one. |
| SephoraSearch.FindBrandsIsFirstInPreOrder | sephora.py:15-33 | The recursive search returns the values of the first brand block in depth-first pre-order of the tree. |
| SephoraSearch.FieldsSearchIsFirstInPreOrder | sephora.py:22-25 | The loop over a dict's values returns the first brand block in the pre-order of the remaining values. |
| SephoraSearch.ItemsSearchIsFirstInPreOrder | sephora.py:26-31 | The loop over a list's items returns the first brand block in the pre-order of the remaining items. |
| SephoraSearch.FindBrandsSound | sephora.py:15-33 | A result is the values list of a brand block of the tree, and no node before that block in pre-order is a brand block. |
| SephoraSearch.FindBrandsComplete | sephora.py:15-33 | The search returns None exactly when no node of the tree is a brand block. |
| SephoraSearch.ScalarHasNoBrands | sephora.py:32-33 | A value that is neither dict nor list gives None. |
| SephoraSearch.NonListValuesSearchesChildren | sephora.py:18-25 | A `c_brand` dict whose `values` is missing or not a list is no match; the search goes on below it. |
| SephoraSearch.PreOrderHoldsDescendants | sephora.py:22-31 | Every node under a child of a dict or list is also a node of the parent's pre-order. |
| SephoraSearch.FoundThroughChild | sephora.py:22-31 | A brand block anywhere under a child makes the search from the parent return a result. |
| SephoraScan.ValidRowsAreValidItemsInOrder | sephora.py:107-115 | The rows are the valid items, converted, in their order, one row each. Positions ascend, and every valid item is listed. |
| SephoraScan.RowsComeFromValidItems | sephora.py:107-115 | A row is present exactly when some valid item converts to it. |
| SephoraScan.ValidBrandRows | sephora.py:105-115 | The item loop builds exactly those rows, and its counter equals their number. |
| SephoraScan.AddUniqueKeepsLabelsUnique | sephora.py:119-126 | Merging keeps the existing rows as a prefix. It leaves no label twice and ends with the union of the labels. |
| SephoraScan.AddUniqueKeepsFirst | sephora.py:119-126 | Every added row has a label that was not there before, and it is the first incoming row with that label (first wins). |
| SephoraScan.AddUniqueKeepsOrder | sephora.py:119-126 | Added rows keep the order in which their labels first appear in the incoming rows. |
| SephoraScan.MergeUnique | sephora.py:117-129 | The merge loop with its growing label set computes the first-wins merge. |
| SephoraScan.ParsedCount | sephora.py:97 | No more candidates are counted as parsed than there are candidates. |
| SephoraScan.FirstYieldIsEarliest | sephora.py:86-137 | The chosen rows are those of the earliest candidate that yields any; nothing is chosen exactly when no candidate yields a row. |
| SephoraScan.UnparsedCandidatesAreSkipped | sephora.py:95-134 | A candidate that `json.loads` rejects changes nothing in the outcome. |
| SephoraScan.EmptyBlockDoesNotStop | sephora.py:103-129 | A brand block without a single valid item does not stop the scan. |
| SephoraScan.HitEndsScan | sephora.py:139-140 | A script that yields rows, after scripts that yield none, decides the result; later scripts are not looked at. |
| SephoraScan.ScanCandidates | sephora.py:86-137 | The candidate loop returns the rows of the first yielding candidate. When none yields, it has counted all candidates and all parsed ones. |
| SephoraScan.ExtractBrands | sephora.py:76-150 | The scan's result equals the specification `Scan`. Its counters are bounded, and they are exact (non-empty scripts, all candidates, all parsed) when nothing is found. |
| SephoraScan.ScanOutcome | sephora.py:139-150 | The result is "none" exactly when no candidate yields a row. Otherwise it has headers `Marka`, `Urun Adedi`, at least one row, distinct labels, and the first-wins merge of the first yielding candidate. |
| SephoraScan.DuplicateEntryGivesOneRow | sephora.py:107-129 | A brand facet listing `{label: ACME, hitCount: 12}` twice gives exactly one row `ACME, 12`. |
| LevelDesigners.MessageSeverity | level_streamlit_app2.py:39-99 | The two warnings start with `Uyarı: `; every other message starts with `Hata: `. |
| LevelDesigners.AbsentKeyGivesEmptyDict | level_streamlit_app2.py:49-50 | Once a key of the `.get` chain is missing, the chain ends in `{}`. |
| LevelDesigners.EmptyDictWalk | level_streamlit_app2.py:49-50 | A `.get(key, {})` chain that starts from `{}` stays `{}`. |
| LevelDesigners.MissingPathGivesKeyError | level_streamlit_app2.py:49-59 | A missing `props`, `pageProps`, `__APOLLO_STATE__` or `ROOT_QUERY` leads to the product-list-key error, not a crash. |
| LevelDesigners.FirstKey | level_streamlit_app2.py:52-56 | The key generator finds nothing exactly when every visited value is a string failing the test. A found key is the first match. A raise comes from the first non-string. |
| LevelDesigners.ProductListKeyChoice | level_streamlit_app2.py:52-59 | For a dict: the first key starting with `_productList`; only when none does, the first key containing `_productList:({`; the key error when neither exists; never a raise. |
| LevelDesigners.NonDictRootQueryRaises | level_streamlit_app2.py:52-62 | A `ROOT_QUERY` that is not a dict always ends in the structure-changed error. |
| LevelDesigners.SelectDesignerFacet | level_streamlit_app2.py:64-69 | The facet loop with its `break` computes the specification of facet selection. |
| LevelDesigners.SelectNoneIffAllSkip | level_streamlit_app2.py:64-75 | No facet is selected exactly when every facet is a dict that fails the test. |
| LevelDesigners.SelectIsFirstMatch | level_streamlit_app2.py:64-69 | The selected facet is the first one in list order that passes; all earlier ones failed. |
| LevelDesigners.SelectRaisesAtFirstCrash | level_streamlit_app2.py:64-69 | A raise comes from the first facet that is not a dict or has a non-string label; all earlier ones failed the test. |
| LevelDesigners.DesignerFacetTest | level_streamlit_app2.py:67 | A facet passes exactly when it is a dict whose `key` is `brand`, or whose `label` is a string spelling `designer` in any letter case. |
| LevelDesigners.SelectedFacetIsTruthy | level_streamlit_app2.py:68-71 | A selected facet is a non-empty dict, so the "filter not found" test only fires when nothing was selected. |
| LevelDesigners.CsvRowsRaiseIffNonDict | level_streamlit_app2.py:84-86 | The option loop raises exactly when some option is not a dict. |
| LevelDesigners.CsvRowsAreHeaderAndKeptOptions | level_streamlit_app2.py:83-88 | The rows are the header, then `[name, count]` of every option with both values non-None, in order, with no deduplication. |
| LevelDesigners.NothingKeptNoPositions | level_streamlit_app2.py:87-88 | When no option has both a name and a count, nothing is appended. |
| LevelDesigners.BuildCsvRows | level_streamlit_app2.py:83-88 | The option loop computes the specification of row building. |
| LevelDesigners.ExtractDesigners | level_streamlit_app2.py:39-99 | The body after the fetch computes the specification `Designers`, step by step. |
| LevelDesigners.RowsResultShape | level_streamlit_app2.py:83-93 | A list result has at least two rows, starts with `['Designer', 'Count']`, and every other row is a pair of non-None values. |
| LevelDesigners.OptionsWarnings | level_streamlit_app2.py:77-91 | "No options" exactly when `options` is missing or falsy. "List empty" exactly when `options` is a non-empty list of dicts, none with both values. The two are never confused. |
| LevelApp.CheckUrl | level_streamlit_app2.py:138-147 | Empty URL: "enter a URL". Submitted exactly when it starts with `http://` or `https://` and contains `levelshoes.com`. Otherwise: "enter a valid Level Shoes URL". |
| LevelApp.SubmittedUrlLength | level_streamlit_app2.py:142 | An accepted URL is at least 21 characters long, since the host cannot overlap the scheme. |
| LevelApp.ListingPageIsSubmitted | level_streamlit_app2.py:142-148 | Any `https://www.levelshoes.com` page is accepted. |
| LevelApp.HostWithoutSchemeIsRefused | level_streamlit_app2.py:142-143 | `www.levelshoes.com` without a scheme is refused. |

## Left out

- Network access: `requests.get` with its headers, timeout and exception messages (level_streamlit_app2.py:21-33). The model starts from the page content.
- HTML parsing with BeautifulSoup: the lxml to html.parser fallback, `find_all('script')`, `get_text()`, and the `__NEXT_DATA__` lookup. Script texts and the `__NEXT_DATA__` outcome are inputs (`SephoraScan.Script`, `LevelDesigners.NextData`) instead.
- The regular expression `(\{.*?\})|(\[.*?\])` and `json.loads` are not modelled. Each script carries the parse result of each non-empty match, in match order. The `if not json_like_string` test (sephora.py:89) cannot fire on a match of that pattern, so it has no counterpart.
- The generic `except Exception` handlers (sephora.py:135-136, level_streamlit_app2.py:100-102). The modelled operations raise nothing else; a Python `RecursionError` on very deep JSON is outside the model.
- Streamlit output and session state: `st.write`, `st.success`, `st.error`, `st.json`, `st.dataframe`, the download button, and storing the result (level_streamlit_app2.py:150-187). These are UI, and the model returns a result value instead.
- The pandas sort and CSV export of the Sephora rows, and `csv.writer` in `convert_to_csv`. These are library serialisers.
- UTF-8 decoding of the upload.
- Text.Lower: only ASCII letters are mapped, where Python's `str.lower` is Unicode-aware. For the one comparison it serves (`== 'designer'`) the result is the same. The only non-ASCII characters with an ASCII lower case are the Kelvin sign (to `k`, not in the word) and U+0130, whose lower case has two characters.
- SephoraScan.ExtractBrands: when data is found, the counters are bounded but not stated exactly, because they stop partway through a script.
- JsonModel.Get: for an object with a repeated key, Python keeps the last value and the model the first; objects are taken to have distinct keys.
- Floating-point details (NaN, infinities) are not modelled; a float is a `real`.
