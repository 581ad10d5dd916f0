# obsidian-ai-blogger: a verified model of its policy core

obsidian-ai-blogger is a Telegram bot and content generator. It writes blog
articles with an AI provider, illustrates them from an image provider, saves
them as Markdown drafts with YAML frontmatter and copies them into an
Obsidian blog folder. Most of the code is glue around vendor SDKs. Under the
glue sit small policy components with exact behaviour. This project models
those components in Dafny 4.11 and proves properties of them.

Each source file of the core is one Dafny module:

| module | source file | what it models |
|---|---|---|
| `BotRateLimiter` | src/bot/rateLimiter.js | the bot's limiter: a timestamp list and a rapid-fire counter per user, hourly and daily limits, reset times, statistics, cleanup and the wait-time text |
| `WindowRateLimiter` | src/utils/rateLimiter.js | the other limiter: fixed hourly and daily windows with reset times and a sliding one-minute burst list |
| `Fallback` | src/ai/aiManager.js, content-generator/src/media/imageManager.js | the provider fallback loop both managers share: candidate list, in-order tries, ALL_PROVIDERS_FAILED, and the health check |
| `AiManager` | src/ai/aiManager.js | the AI manager: registration, getProvider, generate, getBestProvider and the completion-token bound |
| `BaseAiProvider` | src/ai/baseProvider.js | token estimate, prompt validation, error classification and the response format |
| `BaseImageProvider` | content-generator/src/media/baseImageProvider.js | keyword normalisation, search validation, image normalisation, filtering by size and orientation, sorting, error classification |
| `UnsplashProvider` | src/media/unsplashProvider.js | search parameters, the branches of searchImages, photo processing, error mapping, image URL and attribution |
| `ImageManager` | content-generator/src/media/imageManager.js | search with fallback, best image for a topic, search keywords, image formatting and Markdown |
| `PromptManager` | content-generator/src/generators/promptManager.js | template loading and validation, variable preparation, placeholder substitution, frontmatter and image keywords |
| `MarkdownGenerator` | both markdownGenerator.js copies | frontmatter defaults and merge, file names and output paths, drafts and articles, updates, word count, reading time, frontmatter validation |
| `BlogIntegration` | both blogIntegration.js copies | copying into the blog, publishing a draft, scanning directories, syncing new files and the integration statistics |
| `Telegraph` | src/utils/telegraph.js | the inline-markup scanner, the cache key and the article cache |
| `BotCommands` | src/bot/commands.js | the bot's handler: authorization, rate-limit gating, routing, the waiting-for-topic state, the drafts keyboard and marking drafts for publication |
| `GeneratorCommands` | content-generator/src/bot/commands.js | the generator bot's handler: commands, the waiting-for-topic state, the sync report and publishing by file name |
| `ConfigLoader` | content-generator/src/utils/config.js | the cached configuration, its validation and dotted-path lookup |
| `Deploy` | scripts/build-and-deploy.js | content types, cache control and S3 object keys |
| `Cli` | src/cli.js, content-generator/src/testImage.js | flag values, topic selection and the outcomes of the two command-line tools |

Shared modules hold what several of these use:
- `Wrappers`: Option and Result.
- `Strs`: JavaScript string operations (trim, split, join, parseInt, String(n), literal replace-all, lower-casing).
- `Js`: JavaScript values, truthiness and objects as ordered key lists.
- `Seqs`: de-duplication, slicing and filtering.
- `Paths`: path.join and path.resolve.
- `Files`: a file system as a map from location to content, with creation order for directory listings.

## How the model is built

- Objects whose fields the source updates in place are classes whose methods
  modify those fields:
  - the two rate limiters;
  - the AI and image managers;
  - the prompt manager's template map;
  - the Telegraph article cache;
  - the two command handlers;
  - the cached configuration.
- Each such method is proved against a function of the old state. The
  properties the source promises are lemmas about those functions.
- Pure code becomes functions whose `ensures` state what the result means.
- Loops in the source are loops in the model, each with its invariants:
  - the fallback loop;
  - the health checks;
  - template loading and buildPrompt;
  - prepareVariables;
  - the sync loop and the recursive scan;
  - the Telegraph scanner;
  - config validation;
  - the limiters' cleanup passes.
- Inputs stand for what lies outside the program: the clock, environment
  variables, provider results, Telegram replies and the file system.
- The libraries the code calls (gray-matter, slugify, yaml) are function
  parameters.
- Floating-point comparisons are integer cross-multiplication:
  - landscape means `5·w > 6·h`;
  - a prompt is valid when `5·estimate < 4·max`.

Some behaviours of the code are easy to miss when reading it. The model
keeps each one as the code has it and proves it as a lemma:
- src/bot/rateLimiter.js:93-99 prunes the stored list to the last hour inside
  the hourly check. The daily check at lines 105-110 counts that pruned list,
  so a daily limit at least as large as the hourly one never fires
  (`BotRateLimiter.DailyLimitUnreachable`).
- src/bot/rateLimiter.js:175 deletes a user when the pruned list is empty and
  `now - lastRequest` exceeds `oneDayAgo`, which is a point in time rather
  than a duration. So only users whose last request lies in the first day
  after the epoch are deleted. Every other user is kept, with their list
  pruned to the last day (`BotRateLimiter.CleanupCutoff`).
- A burst rejection always reports a reset time of 60000 ms
  (src/bot/rateLimiter.js:26, `BotRateLimiter.RejectionResetTimes`).
- content-generator/src/utils/config.js:16-19 stores the parsed
  configuration in the cache before validating it. After a failed
  validation, the next load returns the cached value without validating it
  (`ConfigLoader.InvalidConfigServedNext`).
- content-generator/src/utils/blogIntegration.js:205-213 scans the drafts
  folder inside the output folder a second time. Its files are therefore
  listed twice (`BlogIntegration.DraftsListedTwice`).
- Publishing a draft copies it into the blog folder and leaves the draft in
  place (`BlogIntegration.PublishKeepsDraft`).
- src/cli.js:38 takes the first argument that does not start with `--` as
  the topic, so a flag's value written before the topic becomes the topic
  (`Cli.FlagValueTakenAsTopic`).
- The generator bot's handler (content-generator/src/bot/commands.js:11-28)
  checks neither authorization nor a rate limit, and
  `GeneratorCommands.Dispatch` routes every message.
- The markdown generator writes its file whether or not it exists
  (`MarkdownGenerator.GenerateMarkdownFile`). Only the copy into the blog
  refuses to overwrite (`BlogIntegration.NoOverwriteKeepsTarget`).
- Marking a draft for publication sets its publish flag in the drafts
  folder (`BotCommands.MarkStep`). Publishing by file name copies the file
  without changing the flag.

## Model

| member | source | states |
|---|---|---|
| BaseImageProvider.NormalizeKeywords | content-generator/src/media/baseImageProvider.js:45-55 | a string keyword is wrapped alone; an array keeps every copy of each non-blank string entry and nothing else, in their order, and fails exactly when a truthy entry is not a string; anything else gives no keywords |
| BaseImageProvider.KeepKeywords | content-generator/src/media/baseImageProvider.js:51 | the array filter keeps every copy of each non-blank string, in order and nothing else, and throws exactly on a truthy non-string entry |
| BaseImageProvider.ValidateSearchParams | content-generator/src/media/baseImageProvider.js:63-75 | valid iff some keyword is given and the limit (10 when absent or 0) lies in 1..50 |
| BaseImageProvider.IsAvailable | content-generator/src/media/baseImageProvider.js:24-38 | available exactly when the configured API key is present and truthy, as `Boolean(this.config.apiKey)` |
| BaseImageProvider.NormalizeImageData | content-generator/src/media/baseImageProvider.js:101-117 | the normalised image has exactly the thirteen fixed keys, in order |
| BaseImageProvider.NormalizedImage | content-generator/src/media/baseImageProvider.js:101-117 | each normalised key holds the caller's value or its documented fallback (src for url, the provider for source, url for downloadUrl), and extra provider fields are dropped |
| BaseImageProvider.NormalizedKey | content-generator/src/media/baseImageProvider.js:101-117 | each of the fixed image keys reads back exactly the value normalizeImageData gives it |
| BaseImageProvider.FormatResponse | content-generator/src/media/baseImageProvider.js:83-94 | a success reply of the provider with one normalised image per input image, in order |
| BaseImageProvider.FormatResponseTotal | content-generator/src/media/baseImageProvider.js:88-92 | metadata.total is the number of images unless the caller's metadata overrides it |
| BaseImageProvider.HandleError | content-generator/src/media/baseImageProvider.js:124-160 | statuses 401, 429 and 403 map one-to-one to their codes, every other status to UNKNOWN_ERROR with the error's own message when it has one |
| BaseImageProvider.RatioAsReal | content-generator/src/media/baseImageProvider.js:185-193 | the division-free comparisons agree with the real ratio width/height |
| BaseImageProvider.FilterImages | content-generator/src/media/baseImageProvider.js:168-201 | the result is a subsequence of the input that holds every copy of each image passing the size and orientation filters, and no other image |
| BaseImageProvider.LandscapeIsWide | content-generator/src/media/baseImageProvider.js:181-189 | a kept landscape image with both dimensions is wider than tall by more than 6:5 |
| BaseImageProvider.SortImages | content-generator/src/media/baseImageProvider.js:209-229 | a permutation of the input, sorted descending by area, width or height for those keys with equal-key images in input order (a stable sort), the input order otherwise |
| BaseImageProvider.SortDesc | content-generator/src/media/baseImageProvider.js:214-224 | the comparator sort: a permutation of the input, in descending order of the key |
| BaseImageProvider.SortStable | content-generator/src/media/baseImageProvider.js:214-224 | for every key value, the images with that key come out in their input order |
| BaseImageProvider.SortDescStable | content-generator/src/media/baseImageProvider.js:214-224 | one key value's images keep their input order through the sort |
| BaseImageProvider.InsertStable | content-generator/src/media/baseImageProvider.js:214-224 | an inserted image goes after every image with the same key |
| BaseImageProvider.WidestFirst | content-generator/src/media/baseImageProvider.js:220-221 | sorting by width puts an image of maximal width first |
| UnsplashProvider.FromConfig | src/media/unsplashProvider.js:13-16 | perPage, orientation and size take the configured value when it is truthy and 10, 'landscape' and 'regular' otherwise |
| UnsplashProvider.PhotoUrl | src/media/unsplashProvider.js:100 | the url of the configured size when the photo has one, else the regular url |
| UnsplashProvider.PhotoTitle | src/media/unsplashProvider.js:102 | the title prefers the alt description, then the description, then '' |
| UnsplashProvider.PhotoDescription | src/media/unsplashProvider.js:103 | the description prefers the description, then the alt description, then '' |
| UnsplashProvider.ProcessedUrl | src/media/unsplashProvider.js:97-126 | the processed photo's url is the size-dependent url |
| UnsplashProvider.ProcessPhoto | src/media/unsplashProvider.js:97-126 | the processed photo has the nineteen keys of the code, in its order, each once; ProcessedUrl, ProcessedTitle, ProcessedDescription, ProcessedSource and ProcessedSizes give their values |
| UnsplashProvider.ProcessedTitle | src/media/unsplashProvider.js:97-126 | the processed photo's title is the alt-first title |
| UnsplashProvider.ProcessedDescription | src/media/unsplashProvider.js:97-126 | the processed photo's description is the description-first text |
| UnsplashProvider.ProcessedSource | src/media/unsplashProvider.js:109 | every processed photo names Unsplash as its source |
| UnsplashProvider.ProcessedSizes | src/media/unsplashProvider.js:118-124 | the processed photo carries the sizes map |
| UnsplashProvider.PerPage | src/media/unsplashProvider.js:45 | the page size never exceeds 30 and is the limit (or the configured page size) otherwise |
| UnsplashProvider.Params | src/media/unsplashProvider.js:42-48 | the request carries the joined query, the capped page size and the page (1 when absent) |
| UnsplashProvider.HandleError | src/media/unsplashProvider.js:274-295 | 403 is RATE_LIMIT_OR_ACCESS_DENIED exactly; otherwise body errors become UNSPLASH_API_ERROR with the joined messages, and anything else is the base classification |
| UnsplashProvider.SearchImages | src/media/unsplashProvider.js:31-92 | every reply names the Unsplash provider; keywords that fail to normalise, and an HTTP error after valid parameters, go through handleError; for valid parameters and a non-empty result the reply holds one normalised image per image of Chosen over the processed photos, in that order |
| UnsplashProvider.InvalidParamsReply | src/media/unsplashProvider.js:35-37 | invalid parameters come back as an UNKNOWN_ERROR reply carrying 'Invalid search parameters', whatever the API answers |
| UnsplashProvider.BlankKeywordsInvalid | src/media/unsplashProvider.js:33-37 | an array of only blank or null keywords is an error reply |
| UnsplashProvider.BlankKeywordsDropped | src/media/unsplashProvider.js:33-37 | normalising an array of only blank or null keywords leaves no keyword, without an error |
| UnsplashProvider.NoResultsIsEmptySuccess | src/media/unsplashProvider.js:54-63 | a response without results is a success with no images |
| UnsplashProvider.UnfilteredKeepsOrder | src/media/unsplashProvider.js:65-86 | without filters or sort key the reply holds one normalised image per photo, in the API's order |
| UnsplashProvider.FilteredImagesPass | src/media/unsplashProvider.js:68-76 | every image of a filtered reply is a processed API photo that passed the size and orientation filters |
| UnsplashProvider.Chosen | src/media/unsplashProvider.js:65-76 | filtering first (only when filters are given), then sorting (only when a non-empty sortBy is given), which only reorders; with filters the result holds exactly the processed images that pass the size and orientation filters |
| UnsplashProvider.ChosenPass | src/media/unsplashProvider.js:65-76 | an image kept by the filters, sorted or not, is one of the processed images and passes the size and orientation filters |
| UnsplashProvider.Processed | src/media/unsplashProvider.js:65 | one processed image per API photo, in the API's order |
| UnsplashProvider.GetImageUrl | src/media/unsplashProvider.js:300-306 | when `photo.sizes` is an object whose entry for the size is truthy, the url is that entry; in every other case it is `url || downloadUrl` |
| UnsplashProvider.NormalizedUrlIgnoresSize | src/media/unsplashProvider.js:300-306 | an image that went through formatResponse has no sizes, so the size asked for never changes its url |
| UnsplashProvider.AttributionText | src/media/unsplashProvider.js:311-313 | the text is exactly "Photo by ", the author, and " on Unsplash": the prefix, the suffix and the length pin the author in between |
| UnsplashProvider.AttributionSpelled | src/media/unsplashProvider.js:311-313 | the attribution text equals "Photo by <author> on Unsplash" as one string |
| UnsplashProvider.AttributionHtml | src/media/unsplashProvider.js:318-320 | the HTML is exactly the opening of a link, the author's url, the referral parameters closing that link's tag, the author's name, and the fixed closing text with the Unsplash referral link: each piece is read back from its place |
| ImageManager.MergeFilters | content-generator/src/media/imageManager.js:134-139 | every filter the caller sets overrides the default, the others keep it |
| ImageManager.BestSearchOptions | content-generator/src/media/imageManager.js:130-141 | limit 5, landscape and an 800x600 minimum by default, the caller's filters on top, and sortBy forced to relevance |
| ImageManager.AttemptOfReply | content-generator/src/media/imageManager.js:94-102 | the manager reads a reply as successful exactly when it is a success reply, and takes its images and metadata |
| ImageManager.NoResultsNotUsable | content-generator/src/media/imageManager.js:96-102 | an Unsplash search without results does not end the fallback loop |
| ImageManager.GenerateSearchKeywords | content-generator/src/media/imageManager.js:178-200 | the topic followed by the three words of the first category its lower-cased text mentions, one clause per category (technology, health, business, education, nature) guarded by the earlier tests failing, and the generic words exactly when it mentions none |
| ImageManager.RainForestIsTechnology | content-generator/src/media/imageManager.js:184 | the substring test for 'ai' sends a nature topic containing "rain" to the technology keywords |
| ImageManager.Manager.constructor | content-generator/src/media/imageManager.js:8-50 | the default provider is config.provider or 'unsplash'; the Unsplash provider is registered only with an access key, so a registered provider has an API key, and uses the configured or default settings |
| ImageManager.Manager.GetProvider | content-generator/src/media/imageManager.js:55-64 | succeeds exactly when the requested (or default) name is registered, and fails with the not-found message otherwise |
| ImageManager.Manager.SearchImages | content-generator/src/media/imageManager.js:69-119 | the result is the fallback run over the de-duplicated, capped candidate list, each candidate asked with the caller's keywords and options; a found result is that provider's reply to them, a success with at least one image |
| ImageManager.Manager.GetBestImageForTopic | content-generator/src/media/imageManager.js:124-173 | the search runs on the topic's generated keywords with the best-image options; an image is returned exactly when it finds one: the first image, the rest as alternatives in order, with the keywords and the found reply's metadata |
| ImageManager.Manager.CheckHealth | content-generator/src/media/imageManager.js:238-265 | one health record per registered provider, in registration order |
| ImageManager.Manager.SourceProvider | content-generator/src/media/imageManager.js:288 | throws exactly for a present source that is neither null nor a string; otherwise a provider is found exactly for a string source whose lower-cased form is registered |
| ImageManager.Manager.FormatImageForArticle | content-generator/src/media/imageManager.js:284-309 | fails exactly when the source lookup throws; alt falls back to the description and 'Article image'; the url is the provider's sized url when the source is registered and image.url otherwise; attribution is present exactly for a registered source unless includeAttribution is false |
| ImageManager.Formatted | content-generator/src/media/imageManager.js:289-308 | alt falls back to the description and 'Article image'; the url is the provider's sized url for a registered source and image.url otherwise; attribution is present exactly for a registered source unless includeAttribution is false |
| ImageManager.Manager.CreateImageMarkdown | content-generator/src/media/imageManager.js:314-328 | fails exactly when formatting the image fails; otherwise it is the Markdown of the formatted image |
| ImageManager.ImageMarkdown | content-generator/src/media/imageManager.js:316-327 | the text starts with the image link (with the quoted title when the title is truthy); after it comes a blank line and the attribution in italics exactly when includeAttribution is truthy and the attribution is non-empty, and nothing otherwise |
| ImageManager.ImageLink | content-generator/src/media/imageManager.js:317-321 | exactly `![alt](url)` without a title and `![alt](url "title")` with one: the head, the ending and the length are all stated |
| ImageManager.WithAttribution | content-generator/src/media/imageManager.js:323-325 | the link, then the "\n\n" separator, then `*attribution*`: each piece and the total length are stated |
| ImageManager.Attribution | content-generator/src/media/imageManager.js:301-306 | text and HTML are present exactly when attribution is wanted, and then they are the provider's attribution text and HTML |
| ImageManager.UnsplashMarkdownAttribution | content-generator/src/media/imageManager.js:284-328 | with a truthy includeAttribution, the Markdown of an image whose source is Unsplash ends with a blank line and "*Photo by <author> on Unsplash*" |
| ImageManager.MarkdownEndsWithAttribution | content-generator/src/media/imageManager.js:323-325 | an attributed Markdown text ends with the blank line and the italic attribution |
| ImageManager.OrInt | content-generator/src/media/imageManager.js:132 | `options.limit || 5`: a present non-zero number, else the default |
| ImageManager.OrText | content-generator/src/media/imageManager.js:285 | `options.size || 'regular'`: a present non-empty string, else the default |
| ImageManager.SearchedImageFindsProvider | content-generator/src/media/imageManager.js:288 | an image from an Unsplash search finds the registered provider under its lower-cased source |
| ImageManager.UnsplashSourceKept | content-generator/src/media/imageManager.js:288 | normalisation keeps the Unsplash source of a processed photo |
| ImageManager.UnsplashSourceFound | content-generator/src/media/imageManager.js:288 | an image whose source is "Unsplash" resolves to the registered provider |
| ImageManager.ArticleUrlIgnoresSize | content-generator/src/media/imageManager.js:285-291 | the size option never changes the article url of a searched image, since normalisation dropped its sizes |
| PromptManager.Set | content-generator/src/generators/promptManager.js:29 | the Map entry is replaced; a new name goes last in key order and a known one keeps its place |
| PromptManager.ValidateTemplate | content-generator/src/generators/promptManager.js:66-84 | a template passes exactly when name and prompt are truthy, variables (when truthy) is an array and frontmatter_template (when truthy) is an object; the first failed check gives its message |
| PromptManager.CheckParsed | content-generator/src/generators/promptManager.js:52-55 | only a parsed object that passes validation is accepted, unchanged |
| PromptManager.LoadTemplate | content-generator/src/generators/promptManager.js:47-61 | succeeds exactly when `<name>.yaml` reads and parses, returning a valid template; every failure is prefixed with the template's name |
| PromptManager.TemplateName | content-generator/src/generators/promptManager.js:27 | the name is a non-empty prefix of the file name |
| PromptManager.LoadedOk | content-generator/src/generators/promptManager.js:18-42 | loading keeps the store well formed: distinct names in key order, each holding a valid template |
| PromptManager.LoadedNames | content-generator/src/generators/promptManager.js:18-42 | after loading, a name is stored exactly when it was before or some YAML file of the listing loaded under it |
| PromptManager.LoadStep | content-generator/src/generators/promptManager.js:18-42 | one turn of the loop: a non-YAML file or a template that fails to load leaves the store as it was; a loaded one is stored under the file's name |
| PromptManager.Loaded | content-generator/src/generators/promptManager.js:18-42 | the store after the loop goes through the listed files; no name stored before is lost |
| PromptManager.Declarations | content-generator/src/generators/promptManager.js:156-157 | the declaration loop walks an array's items and nothing for a falsy field |
| PromptManager.Declare | content-generator/src/generators/promptManager.js:158-172 | one declaration never changes a variable already set and leaves its own name set |
| PromptManager.PrepareVariables | content-generator/src/generators/promptManager.js:147-177 | the loop computes the prepared variables (clock variables over the user's, then the declarations) |
| PromptManager.Prepared | content-generator/src/generators/promptManager.js:147-177 | the specification of prepareVariables: the clock variables over the user's, then every declaration in order; DeclareAll, DeclareAllDefines and FirstDeclarationDecides state its properties |
| PromptManager.DeclareAll | content-generator/src/generators/promptManager.js:157-172 | the declaration loop stops at the first error, and on success a variable already set is never replaced |
| PromptManager.DeclareAllDefines | content-generator/src/generators/promptManager.js:157-172 | after a successful loop every declared name is set |
| PromptManager.FirstDeclarationDecides | content-generator/src/generators/promptManager.js:161-171 | the first declaration of an unset name decides it: its default (even null), an error when required, '' otherwise |
| PromptManager.PreparedKeepsUserAndClock | content-generator/src/generators/promptManager.js:148-153 | the clock variables always override the user's, and every other user value comes through unchanged |
| PromptManager.SubstituteText | content-generator/src/generators/promptManager.js:127-130 | text that mentions no placeholder of any variable comes back unchanged |
| PromptManager.NoBraceNoPlaceholder | content-generator/src/generators/promptManager.js:128 | a text without '{' holds no placeholder |
| PromptManager.SubstituteValue | content-generator/src/generators/promptManager.js:204-226 | substitution keeps the shape of every value (strings stay strings, arrays and objects keep their length and keys) and recurses item by item |
| PromptManager.SubstituteNothing | content-generator/src/generators/promptManager.js:204-226 | with no variables substitution is the identity at every depth |
| PromptManager.Or | content-generator/src/generators/promptManager.js:108-110 | `a \|\| d` picks a truthy a and d otherwise |
| PromptManager.Manager.constructor | content-generator/src/generators/promptManager.js:10-13 | the store starts empty and well formed |
| PromptManager.Manager.LoadTemplates | content-generator/src/generators/promptManager.js:18-42 | a listing error changes nothing and is passed on; otherwise the store is the loaded store and stays well formed |
| PromptManager.Manager.GetTemplate | content-generator/src/generators/promptManager.js:89-97 | succeeds exactly for a stored name with its template, and fails with the not-found message otherwise |
| PromptManager.Manager.GetAvailableTemplates | content-generator/src/generators/promptManager.js:102-113 | one summary per stored template in insertion order, with the defaults for description, language and version |
| PromptManager.Manager.BuildPrompt | content-generator/src/generators/promptManager.js:118-142 | the loop computes the template's prompt with every prepared variable substituted in entry order, and returns the stored template |
| PromptManager.Manager.BuildPromptSpec | content-generator/src/generators/promptManager.js:118-142 | the specification of buildPrompt: the not-found error, the preparation error, or the prompt built from the prepared variables; BuildPrompt is proved equal to it |
| PromptManager.Manager.BuildFrontmatter | content-generator/src/generators/promptManager.js:182-199 | {} without a frontmatter template; for an object template, every key reads the additional data when it has it and the substituted template otherwise |
| PromptManager.Manager.GetImageKeywords | content-generator/src/generators/promptManager.js:231-244 | an unknown template fails; [topic or 'article', 'concept', 'technology'] without image keywords; otherwise a failed variable preparation, or exactly SubstitutedKeywords of the field under the prepared variables |
| PromptManager.Manager.GetTemplateMetadata | content-generator/src/generators/promptManager.js:249-261 | succeeds exactly for a stored name and fails with the not-found message otherwise; the name is the template's own, description, version and language fall back to '', '1.0' and 'ru' and variables to [] when falsy, and the image and frontmatter flags are the truthiness of those fields |
| PromptManager.SubstitutedKeywords | content-generator/src/generators/promptManager.js:239-243 | a non-array field throws; for an array, it throws exactly when a substituted item is a truthy non-string, and otherwise keeps every copy of each non-blank substituted string, in order, and nothing else |
| PromptManager.SubstItems | content-generator/src/generators/promptManager.js:239-241 | the keywords mapped one by one through variable substitution |
| PromptManager.PromptWithoutBraces | content-generator/src/generators/promptManager.js:125-130 | a prompt without '{' is returned exactly as written, whatever the variables |
| MarkdownGenerator.OutputDir | src/generators/markdownGenerator.js:12 | the bot's copy resolves the output directory against the working directory (always absolute); the generator's copy keeps it as given |
| MarkdownGenerator.Body | content-generator/src/generators/markdownGenerator.js:119-123 | the generator's copy writes '' for a falsy body, the bot's copy passes the content as it is |
| MarkdownGenerator.GetDefaults | content-generator/src/generators/markdownGenerator.js:87-95 | the defaults hold the title, the day's date, publish false, empty tags and empty description, image and slug |
| MarkdownGenerator.MergedReads | content-generator/src/generators/markdownGenerator.js:98-102 | after the merge the title is the parameter, and every other key is the caller's value when set and the default otherwise |
| MarkdownGenerator.PrepareFrontmatter | content-generator/src/generators/markdownGenerator.js:84-114 | the title is always the parameter and a slug is always set; PreparedSlug and PreparedOther give every other key's value |
| MarkdownGenerator.PreparedTitle | content-generator/src/generators/markdownGenerator.js:101 | the prepared title is always the parameter |
| MarkdownGenerator.PreparedSlug | content-generator/src/generators/markdownGenerator.js:105-111 | the slug is the caller's when truthy, the slug of the title otherwise |
| MarkdownGenerator.PreparedOther | content-generator/src/generators/markdownGenerator.js:98-102 | every other key is the caller's value when set and its default otherwise |
| MarkdownGenerator.GenerateFilename | content-generator/src/generators/markdownGenerator.js:68-79 | `<date>-<slug(title)>.md` |
| MarkdownGenerator.GetOutputPath | content-generator/src/generators/markdownGenerator.js:128-133 | the path is as absolute as the output directory; with plain names it is the output directory, then the subfolder when truthy, then the file name |
| MarkdownGenerator.BotPathsAreAbsolute | src/generators/markdownGenerator.js:12 | every output path of the bot's copy is absolute |
| MarkdownGenerator.WriteAt | content-generator/src/generators/markdownGenerator.js:138-146 | `mkdir -p` then writeFile succeeds exactly when no regular file lies on the way and the target is not a directory, and then writes only the target |
| MarkdownGenerator.GenerateMarkdownFile | content-generator/src/generators/markdownGenerator.js:18-63 | succeeds exactly when the output path can be written; then it reports the chosen file name, its path, the size of the text and the prepared frontmatter, and writes only that file; a failure changes nothing |
| MarkdownGenerator.FlagsOver | content-generator/src/generators/markdownGenerator.js:152-156 | the forced flags win over the caller's frontmatter, every other key is the caller's |
| MarkdownGenerator.CreateDraft | content-generator/src/generators/markdownGenerator.js:151-164 | a written draft has publish false and draft true whatever the caller passed, and lies under the drafts subfolder; a failed write changes no file |
| MarkdownGenerator.CreateArticle | content-generator/src/generators/markdownGenerator.js:169-181 | a written article has publish true and draft false whatever the caller passed, and lies directly in the output directory; a failed write changes no file |
| MarkdownGenerator.UpdateMarkdownFile | content-generator/src/generators/markdownGenerator.js:186-218 | succeeds exactly when the file exists, gray-matter parses it and it can be rewritten; a parse failure reports gray-matter's message; the reported path is filePath as given; the frontmatter is the new keys over the file's own (or the file's own without new ones) and the body is replaced; a failure changes no file |
| MarkdownGenerator.UpdateMerges | content-generator/src/generators/markdownGenerator.js:193-195 | each key of the updated frontmatter reads the new value where the new frontmatter has it and the file's value elsewhere |
| MarkdownGenerator.RunLength | content-generator/src/generators/markdownGenerator.js:246 | the length of the leading run of non-space characters, stopping at a space |
| MarkdownGenerator.Words | content-generator/src/generators/markdownGenerator.js:246 | every word is non-empty and contains no white space |
| MarkdownGenerator.NoWordsIffBlank | content-generator/src/generators/markdownGenerator.js:245-247 | the count is 0 exactly for blank text |
| MarkdownGenerator.CountWords | content-generator/src/generators/markdownGenerator.js:245-247 | the number of whitespace-free words; NoWordsIffBlank and WordsOfJoin state what it counts |
| MarkdownGenerator.WordsOfJoin | content-generator/src/generators/markdownGenerator.js:246 | words joined with single spaces are split back into the same words |
| MarkdownGenerator.WordThen | content-generator/src/generators/markdownGenerator.js:246 | a word followed by a space (or the end) is the first word |
| MarkdownGenerator.RunLengthOfWord | content-generator/src/generators/markdownGenerator.js:246 | the leading run of a word followed by a space is the word |
| MarkdownGenerator.EstimateReadingTime | content-generator/src/generators/markdownGenerator.js:252-262 | minutes is the least number with 200 × minutes ≥ words; the text is '1 минута' exactly for one minute and '<n> минут' otherwise |
| MarkdownGenerator.ReadingTimeText | content-generator/src/generators/markdownGenerator.js:260 | the plural text never equals the singular one |
| MarkdownGenerator.NineMinutes | content-generator/src/generators/markdownGenerator.js:252-262 | 1800 words read in nine minutes, shown as "9 минут" |
| MarkdownGenerator.ValidIff | content-generator/src/generators/markdownGenerator.js:267-290 | no errors exactly when the title is truthy, truthy tags are an array and a truthy publish is a boolean |
| MarkdownGenerator.ValidateFrontmatter | content-generator/src/generators/markdownGenerator.js:267-290 | the loop collects the errors in order, and the frontmatter is valid exactly when there are none |
| MarkdownGenerator.DraftFrontmatterValid | content-generator/src/generators/markdownGenerator.js:84-114 | a prepared draft for a non-empty title passes validation when the caller's tags, if truthy, are an array |
| BlogIntegration.MakeConfig | content-generator/src/utils/blogIntegration.js:9-13 | each setting is the configured text when it is non-empty; otherwise './output', '../obsidian-blogger/Blog' and 'drafts' |
| BlogIntegration.CopyToBlogs | content-generator/src/utils/blogIntegration.js:25-86 | a file on the folder's path fails mkdir; FILE_EXISTS exactly when mkdir succeeds, overwrite is off and the target exists; a copy happens exactly when mkdir succeeds, the target may be written and the file copy succeeds, and it lands at the target folder (blog root when publishing, else its drafts folder, plus the subfolder) under the last '/'-segment of the source, with the source's content and the matching status; a failure changes nothing |
| BlogIntegration.TargetFolder | content-generator/src/utils/blogIntegration.js:33-41 | as absolute as the blog folder; with plain names, the blog folder, then the drafts subfolder unless publishing, then the subfolder when truthy |
| BlogIntegration.NoOverwriteKeepsTarget | src/utils/blogIntegration.js:51-63 | a copy onto an existing file without overwrite reports FILE_EXISTS and leaves every file as it was |
| BlogIntegration.PublishDraft | content-generator/src/utils/blogIntegration.js:162-197 | DRAFT_NOT_FOUND exactly when the draft does not exist; otherwise the copy of `<blog>/<drafts>/<name>` to `<blog>/<name>` decides: published exactly when it succeeds, reporting those two paths and leaving the copied file system, failed with the copy's error exactly when it fails; a failure changes nothing; a publish writes the draft's content to the blog root and nothing else |
| BlogIntegration.PublishKeepsDraft | src/utils/blogIntegration.js:164-187 | publishing copies: the draft stays with its content, and the published file has the same content |
| BlogIntegration.ScanDirectory | content-generator/src/utils/blogIntegration.js:256-279 | the recursive walk appends exactly the scan of the directory to the caller's list |
| BlogIntegration.Scan | content-generator/src/utils/blogIntegration.js:256-279 | every scanned entry is a regular file below the directory whose name ends with the extension (ScanComplete gives the converse) |
| BlogIntegration.ScanEntries | content-generator/src/utils/blogIntegration.js:260-275 | every entry contributed by the listed names is such a file |
| BlogIntegration.ScanItem | content-generator/src/utils/blogIntegration.js:261-274 | every entry one listed name contributes, by walking a subdirectory or as a file itself, is such a file |
| BlogIntegration.ScanComplete | content-generator/src/utils/blogIntegration.js:256-279 | every such file below the directory is found by the scan |
| BlogIntegration.ScanItemComplete | content-generator/src/utils/blogIntegration.js:261-274 | a matching file under a listed name is found by that name's step of the walk |
| BlogIntegration.ScanEntriesHas | content-generator/src/utils/blogIntegration.js:260-275 | what one listed name contributes is part of the walk over the listing |
| BlogIntegration.DirBelowDepth | content-generator/src/utils/blogIntegration.js:263-265 | a directory lies above the deepest stored path, so the recursion ends |
| BlogIntegration.GetGeneratorFiles | content-generator/src/utils/blogIntegration.js:202-224 | the output folder's scan followed by the drafts folder's scan |
| BlogIntegration.GetBlogFiles | content-generator/src/utils/blogIntegration.js:229-251 | the blog folder's scan followed by its drafts folder's scan |
| BlogIntegration.ScanBoth | content-generator/src/utils/blogIntegration.js:229-251 | two scans into one list, the first folder's entries first |
| BlogIntegration.DraftsListedTwice | content-generator/src/utils/blogIntegration.js:205-213 | a Markdown file in the generator's drafts folder is listed at least twice |
| BlogIntegration.NewFiles | content-generator/src/utils/blogIntegration.js:102-106 | a subsequence of the generator files holding every copy of each file whose name occurs nowhere among the blog's files, and no other file |
| BlogIntegration.CommonFiles | content-generator/src/utils/blogIntegration.js:349-351 | a subsequence of the generator files holding every copy of each file whose name occurs among the blog's files, and no other file |
| BlogIntegration.CommonPlusNew | content-generator/src/utils/blogIntegration.js:345-357 | the generator files split exactly into the common and the new ones |
| BlogIntegration.CopyAllNames | content-generator/src/utils/blogIntegration.js:121-137 | one result per new file, in the same order, under the file's name |
| BlogIntegration.CopyAllAt | content-generator/src/utils/blogIntegration.js:121-137 | the i-th result is the copy of the i-th file on the file system left by the copies before it |
| BlogIntegration.SuccessCount | content-generator/src/utils/blogIntegration.js:139 | the number of successful copies is at most the number of results |
| BlogIntegration.SyncNewFiles | content-generator/src/utils/blogIntegration.js:91-157 | no new files means success with nothing copied; otherwise the loop copies the new files in order to drafts without overwriting, each seeing the previous copies, and reports every result, the total and the number of successes |
| BlogIntegration.CopyAll | content-generator/src/utils/blogIntegration.js:119-135 | one result per new file, in order, under that file's name, each copy run on the file system the previous one left |
| BlogIntegration.SyncTargetsDrafts | src/utils/blogIntegration.js:121-137 | every file a sync copies goes to the blog's drafts folder under its own name, as a draft |
| BlogIntegration.IntegrationStatsOf | content-generator/src/utils/blogIntegration.js:337-368 | generatorFiles, blogFiles and commonFiles are the sizes of the generator list, the blog list and their common part, autoSync is the configured flag, and newFiles is the number of generator files the blog lacks, so common plus new is the generator count and 0 <= newFiles <= generatorFiles |
| Telegraph.FindBold | src/utils/telegraph.js:247-250 | the first `**` at or after k, or the end of the text |
| Telegraph.FindChar | src/utils/telegraph.js:264-267 | the first occurrence of the character at or after k, or the end of the text |
| Telegraph.FindBoldFirst | src/utils/telegraph.js:247-250 | a stopping point with no `**` before it is the one the search reports |
| Telegraph.FindCharFirst | src/utils/telegraph.js:264-267 | a stopping point with no occurrence before it is the one the search reports |
| Telegraph.ProcessTextWithMarkdown | src/utils/telegraph.js:233-308 | the index-driven loop returns exactly the parts of the reference scan of the whole text |
| Telegraph.BoldSpan | src/utils/telegraph.js:240-255 | the bold branch moves the index forward and, with the rest of the scan, yields what the reference gives from the marker |
| Telegraph.ItalicSpan | src/utils/telegraph.js:257-272 | the same for the single-'*' branch |
| Telegraph.LinkSpan | src/utils/telegraph.js:274-297 | the same for the '[' branch, resuming at the ']' when no '(' follows |
| Telegraph.UrlSpan | src/utils/telegraph.js:285-296 | the URL part after `](` ends at ')' and yields the link node, or nothing when unterminated |
| Telegraph.GoNoEmptyText | src/utils/telegraph.js:238-306 | the scan never emits an empty plain-text part |
| Telegraph.FromMarkerNoEmptyText | src/utils/telegraph.js:240-297 | nor does any marker branch |
| Telegraph.Markup | src/utils/telegraph.js:233-308 | no plain-text part of the result is empty; PlainText, BoldForm, ItalicForm, LinkForm, UnterminatedBold and BracketWithoutLink give the parts of each shape of input |
| Telegraph.GoPlainRun | src/utils/telegraph.js:298-301 | characters that are not markers only accumulate in the pending text |
| Telegraph.PlainText | src/utils/telegraph.js:233-308 | text without '*' or '[' is one plain part, or nothing when empty |
| Telegraph.BoldForm | src/utils/telegraph.js:240-255 | `**x**` becomes one strong node |
| Telegraph.ItalicForm | src/utils/telegraph.js:257-272 | `*x*` becomes one emphasis node |
| Telegraph.LinkForm | src/utils/telegraph.js:274-297 | `[t](u)` becomes one link node to u with text t |
| Telegraph.UnterminatedBold | src/utils/telegraph.js:251-255 | an unterminated `**` drops the marker and everything after it |
| Telegraph.BracketWithoutLink | src/utils/telegraph.js:285-296 | `[t]` without '(' drops t, and the ']' and what follows stay as plain text |
| Telegraph.KeepAlnum | src/utils/telegraph.js:38 | a subsequence of the input holding every copy of each ASCII letter and digit and no other character |
| Telegraph.CacheKey | src/utils/telegraph.js:36-39 | the title, a dash, then KeepAlnum of the first 100 characters: every letter and digit among them, in order, and nothing else |
| Telegraph.Head100 | src/utils/telegraph.js:38 | substring(0, 100): a prefix of at most 100 characters, the whole text when shorter |
| Telegraph.SameHeadSameKey | src/utils/telegraph.js:36-39 | drafts with the same title and the same first 100 characters share one cache entry |
| Telegraph.ArticleCache.constructor | src/utils/telegraph.js:11 | the in-memory cache starts empty |
| Telegraph.ArticleCache.Publish | src/utils/telegraph.js:104-151 | without an account nothing changes and no page is made; the disk cache is loaded only into an empty memory cache; a hit returns the stored URL without creating a page; a miss creates one and stores and saves its URL |
| BotCommands.AdminIds | src/bot/commands.js:70 | one parsed id per comma-separated piece, each piece trimmed before parseInt |
| BotCommands.IdList | src/bot/commands.js:70 | the decimal writing of each id, in order |
| BotCommands.IntToStringShape | src/bot/commands.js:70 | a written id contains no comma and no surrounding blanks |
| BotCommands.AdminIdsOfList | src/bot/commands.js:67-72 | parsing a comma-joined list of ids gives every id back, in order |
| BotCommands.AuthorizedIffListed | src/bot/commands.js:67-72 | with ADMIN_TELEGRAM_ID set to a list of ids, a user is authorized exactly when listed |
| BotCommands.Keyboard | src/bot/commands.js:169-175 | one row of two buttons per draft |
| BotCommands.ParseCallback | src/bot/commands.js:267-268 | the action never holds a colon; data without a colon is all action and no index |
| BotCommands.CallbackDataParses | src/bot/commands.js:172-173 | the callback data written for an action and index parses back to both |
| BotCommands.KeyboardRoundTrip | src/bot/commands.js:169-175 | row i's buttons parse back to view_draft:i and mark_publish:i, and the first shows the status mark then the title |
| BotCommands.DraftAt | src/bot/commands.js:185 | a draft is found exactly for a cached list and an index inside it, and it is that entry |
| BotCommands.Preview | src/bot/commands.js:192 | content of at most 600 characters is shown whole; longer content is cut to 600 and followed by "..." |
| BotCommands.GenerateStep | src/bot/commands.js:132-158 | a blank topic makes the user wait for one and asks for it; any other topic is generated and the waiting state cleared whatever the outcome; other users untouched |
| BotCommands.RegularStep | src/bot/commands.js:120-130 | a waiting user's text is the topic; otherwise only the hint |
| BotCommands.DraftsStep | src/bot/commands.js:160-182 | the listing replaces the user's cached drafts; an empty listing says so, a non-empty one shows the keyboard; a failing listing throws and changes nothing |
| BotCommands.ViewReply | src/bot/commands.js:184-215 | a missing draft is reported; otherwise the preview and title of the draft, with the Telegraph URL exactly when an account exists and the call gives a non-empty URL |
| BotCommands.MarkCached | src/bot/commands.js:239 | only draft i changes, and only its publish flag becomes true |
| BotCommands.MarkStep | src/bot/commands.js:217-263 | a missing draft gets an alert, an already marked one an answer and no update; otherwise updateDraft is asked once and, on success, the cached flag is set and the keyboard redrawn; other users' caches untouched |
| BotCommands.CallbackStep | src/bot/commands.js:265-279 | view_draft previews and answers, mark_publish marks, any other action does nothing |
| BotCommands.ParseCommand | src/bot/commands.js:77-78 | the first space-separated word (the command, slash included, holding no space) and the remaining pieces re-joined by single spaces; CommandSplitsAtFirstSpace and CommandWithoutArguments characterise it, and the slash is dropped later by CommandStep |
| BotCommands.CommandSplitsAtFirstSpace | src/bot/commands.js:77-87 | the topic of /generate is exactly the text after the first space, runs of spaces included |
| BotCommands.CommandWithoutArguments | src/bot/commands.js:77 | a text without a space has no arguments |
| BotCommands.CommandStep | src/bot/commands.js:74-101 | start, generate, drafts, publish and help go to their handlers; any other name gets the unknown-command reply |
| BotCommands.RouteOf | src/bot/commands.js:54-60 | callbacks first, then texts starting with a slash as commands, everything else as plain messages |
| BotCommands.Dispatch | src/bot/commands.js:54-60 | a callback goes to the callback handler, then text starting with a slash to the command handler, anything else to the plain-message handler |
| BotCommands.WaitText | src/bot/commands.js:48 | with a reset time, the wait text's number parses back as the rounded-up wait; a NaN reset time prints as "NaN ч" |
| BotCommands.Handle | src/bot/commands.js:27-65 | the specification of handleMessage: identification, authorization, the limiter check, recording, dispatch and the error reply in that order; GatingOrder states its properties |
| BotCommands.GatingOrder | src/bot/commands.js:27-65 | an update without user or chat changes nothing; an unauthorized user is refused before the rate limiter is consulted; a throttled user is recorded nothing; an admitted one is recorded, then dispatched, an exception giving the generic error reply |
| BotCommands.BlankTopicThenMessage | src/bot/commands.js:120-137 | after a blank /generate the next plain message is generated as the topic |
| BotCommands.AttemptClearsWaiting | src/bot/commands.js:125-157 | after any generation attempt the next plain message only gets the hint |
| BotCommands.ViewAfterListing | src/bot/commands.js:160-192 | pressing row i's view button after a listing previews draft i of that listing |
| BotCommands.MarkTwice | src/bot/commands.js:229-239 | marking the same draft twice calls updateDraft at most once |
| BotCommands.CommandHandler.constructor | src/bot/commands.js:8-21 | no user waits and no drafts are cached |
| BotCommands.CommandHandler.HandleGenerate | src/bot/commands.js:132-158 | the new state and output are GenerateStep's |
| BotCommands.CommandHandler.HandleRegularMessage | src/bot/commands.js:120-130 | the new state and output are RegularStep's |
| BotCommands.CommandHandler.HandleDrafts | src/bot/commands.js:160-182 | the new state and output are DraftsStep's |
| BotCommands.CommandHandler.HandleMarkForPublication | src/bot/commands.js:217-263 | the new state and output are MarkStep's |
| BotCommands.CommandHandler.HandleCallbackQuery | src/bot/commands.js:265-279 | the new state and output are CallbackStep's |
| BotCommands.CommandHandler.HandleCommand | src/bot/commands.js:74-101 | the new state and output are CommandStep's |
| BotCommands.CommandHandler.Route | src/bot/commands.js:54-60 | the new state and output are those of the one route the update takes |
| BotCommands.CommandHandler.HandleMessage | src/bot/commands.js:27-65 | the new session, rate-limiter table and output are Handle's |
| GeneratorCommands.RequestFor | content-generator/src/bot/commands.js:152-159 | the article is requested for the topic with the default template |
| GeneratorCommands.RoundKb | content-generator/src/bot/commands.js:172 | the size in kilobytes, rounded to the nearest with halves rounded up |
| GeneratorCommands.GenerateStep | content-generator/src/bot/commands.js:116-222 | a blank topic asks for one and makes the user wait; any other topic clears the state and requests the article exactly once; other users untouched |
| GeneratorCommands.RegularStep | content-generator/src/bot/commands.js:71-89 | no state gets the hint with an example; a waiting user's text is the topic; any other state the plain hint |
| GeneratorCommands.Report | content-generator/src/bot/commands.js:419-436 | nothing new reports no new files; otherwise at most five files are listed and the rest counted |
| GeneratorCommands.SyncReplies | content-generator/src/bot/commands.js:407-474 | the progress message first; then Report of the result when syncWithBlog returned a success, the error when it returned a failure, and the exception's message when it threw |
| GeneratorCommands.PublishStep | content-generator/src/bot/commands.js:476-551 | a blank file name gets a prompt and publishDraft is not called; otherwise it is called once with that name, the publishing message comes first, and the second reply is the published message for a copied draft, the not-found message for DRAFT_NOT_FOUND, the failure with the copy's error for any other failure, and the crash message with the file name and the exception's message when publishDraft throws (each case both ways) |
| GeneratorCommands.CommandStep | content-generator/src/bot/commands.js:30-69 | start, templates, drafts, settings, help and status reply with their fixed screens (drafts with the drafts info) and leave the states alone; generate, sync and publish go to their handlers (generate and publish with the re-joined arguments, sync with the sync outcome); any other name gets the unknown-command reply |
| GeneratorCommands.Dispatch | content-generator/src/bot/commands.js:11-28 | text starting with a slash is a command, anything else a plain message |
| GeneratorCommands.BlankGenerateThenTopic | content-generator/src/bot/commands.js:74-84 | after a blank /generate the next plain message is the requested topic |
| GeneratorCommands.GenerateCommandTopic | content-generator/src/bot/commands.js:33-43 | "/generate " and a topic requests exactly that topic, inner spaces kept |
| GeneratorCommands.BlankPublishCallsNothing | content-generator/src/bot/commands.js:63-64 | /publish with only spaces after it never reaches publishDraft |
| GeneratorCommands.ReportListsFirstNewFiles | content-generator/src/bot/commands.js:426-428 | the files a sync report lists are the first new files, under their own names |
| GeneratorCommands.CommandHandler.constructor | content-generator/src/bot/commands.js:5-9 | no user waits |
| GeneratorCommands.CommandHandler.HandleGenerate | content-generator/src/bot/commands.js:116-222 | the new states and output are GenerateStep's |
| GeneratorCommands.CommandHandler.HandleRegularMessage | content-generator/src/bot/commands.js:71-89 | the new states and output are RegularStep's |
| GeneratorCommands.CommandHandler.HandleCommand | content-generator/src/bot/commands.js:30-69 | the new states and output are CommandStep's |
| GeneratorCommands.CommandHandler.HandleMessage | content-generator/src/bot/commands.js:11-28 | the new states and output are Dispatch's |
| BotRateLimiter.Configured | src/bot/rateLimiter.js:6-8 | a present non-zero option wins, then a non-zero parsed variable; when both are absent, unparseable or zero the result is the default; a non-zero default gives a non-zero limit |
| BotRateLimiter.Recent | src/bot/rateLimiter.js:95 | a subsequence of the stored times holding every copy of each time after the cutoff and no other time |
| BotRateLimiter.BurstCheck | src/bot/rateLimiter.js:73-88 | only the burst counter changes: up by one within ten seconds, 1 within a minute, 0 after; within a minute the check fires exactly when the counter reaches the burst limit, never after |
| BotRateLimiter.HourlyResetTime | src/bot/rateLimiter.js:115-119 | NaN exactly when no request is stored; otherwise the least non-negative wait after which the oldest stored request is an hour old: max(0, oldest + 1 h − now) |
| BotRateLimiter.DailyResetTime | src/bot/rateLimiter.js:124-135 | 0 when nothing lies in the last day; otherwise the least non-negative wait after which the oldest request of the last day is a day old: max(0, oldest + 24 h − now) |
| BotRateLimiter.StatsOf | src/bot/rateLimiter.js:140-161 | the hourly and daily counts are the numbers of stored requests after now minus an hour and now minus a day; the limits, the last request and the burst counter are the record's; the remaining counts are never negative, with the used counts they always reach the limits, and while positive they add up to them exactly |
| BotRateLimiter.RecordShowsInStats | src/bot/rateLimiter.js:45-53 | a request recorded now adds one to the hourly and daily counts reported now, takes one from a positive hourly remainder, and becomes the last request |
| BotRateLimiter.Check | src/bot/rateLimiter.js:20-40 | allowed exactly when the burst check does not fire, the last hour holds fewer requests than the hourly limit and the last day of that pruned list fewer than the daily limit; the stored list becomes the last hour unless the burst check fired; the last request time is kept and no request is added; the checks run burst, hourly, daily and the first that fires sets the reason: a burst rejection reports one minute and keeps the list unpruned, an hourly one HourlyResetTime of the pruned list, a daily one DailyResetTime of it |
| BotRateLimiter.Record | src/bot/rateLimiter.js:45-53 | the time is appended and becomes lastRequest; the burst counter is kept |
| BotRateLimiter.FormatWaitTime | src/bot/rateLimiter.js:183-198 | the text is the rounded-up amount of WaitTime followed by its unit's text |
| BotRateLimiter.WaitTextReadsBack | src/bot/rateLimiter.js:183-198 | parseInt of the wait text gives back the rounded-up amount |
| BotRateLimiter.RateLimiter.constructor | src/bot/rateLimiter.js:5-15 | the limits come from the options, then the environment, then 10, 50 and 3; the table starts empty |
| BotRateLimiter.RateLimiter.GetUserData | src/bot/rateLimiter.js:58-68 | the stored record, or a fresh one that is now stored; nobody else's changes |
| BotRateLimiter.RateLimiter.CanMakeRequest | src/bot/rateLimiter.js:20-40 | the verdict and the user's updated record are Check's; nobody else's changes |
| BotRateLimiter.RateLimiter.RecordRequest | src/bot/rateLimiter.js:45-53 | the time is appended and becomes lastRequest; nobody else's changes |
| BotRateLimiter.RateLimiter.GetUserStats | src/bot/rateLimiter.js:140-161 | the statistics are StatsOf's, and an unknown user's record is created |
| BotRateLimiter.RateLimiter.Cleanup | src/bot/rateLimiter.js:166-179 | every record is pruned to the last day and the dropped ones deleted |
| BotRateLimiter.CeilDiv | src/bot/rateLimiter.js:185 | the least whole number of b that covers a |
| BotRateLimiter.WaitTimeRoundsUp | src/bot/rateLimiter.js:184-198 | the wait shown is the true wait rounded up to whole units, less than 60 of a unit below hours |
| BotRateLimiter.RejectionResetTimes | src/bot/rateLimiter.js:20-39 | a burst rejection reports one minute, an hourly one a time whenever the limit is positive, a daily one a time |
| BotRateLimiter.RecentNested | src/bot/rateLimiter.js:93-110 | filtering the last hour's list to the last day changes nothing |
| BotRateLimiter.DailyLimitUnreachable | src/bot/rateLimiter.js:93-110 | a daily limit at least the hourly one never fires, because the hourly check already pruned to the last hour |
| BotRateLimiter.BurstBound | src/bot/rateLimiter.js:73-88 | within ten seconds after a minute of quiet at most burstLimit requests (at least one) are allowed |
| BotRateLimiter.HourlyBound | src/bot/rateLimiter.js:93-100 | within one hour at most requestsPerHour requests are allowed |
| BotRateLimiter.HourlyWithinDaily | src/bot/rateLimiter.js:147-148 | the hourly count never exceeds the daily count |
| BotRateLimiter.CleanupCutoff | src/bot/rateLimiter.js:166-179 | a record is deleted exactly when nothing lies in the last day and its last request lies in the first day after the epoch; kept records hold only the last day |
| WindowRateLimiter.ConfigOrDefault | src/utils/rateLimiter.js:5-10 | a given configuration is used as is; none gives enabled, 10, 50 and 3 |
| WindowRateLimiter.Prune | src/utils/rateLimiter.js:64-66 | a subsequence of the stored times holding every copy of each time less than a minute old and no other time |
| WindowRateLimiter.Refresh | src/utils/rateLimiter.js:74-87 | a stored window that has not expired is kept; a missing or expired one restarts at 0 with a full window; the reset time is never in the past |
| WindowRateLimiter.RecordIn | src/utils/rateLimiter.js:113-129 | the time is appended to the user's burst list; the user's hourly and daily counters grow by one only when they exist; nothing else changes |
| WindowRateLimiter.StatsOf | src/utils/rateLimiter.js:131-152 | both limits and the burst limit are the configured ones and the burst use is the stored list's length; a known user's hourly and daily use are the stored counts and each reset time is `max(0, resetTime - now)`; an unknown user counts as unused |
| WindowRateLimiter.Check | src/utils/rateLimiter.js:23-51 | a request passes exactly when the limiter is disabled or the pruned burst list, the refreshed hourly count and the refreshed daily count are all under their limits; when enabled, a passing request adds its time to the pruned burst list and a failing one leaves just the pruned list |
| WindowRateLimiter.AllowedShowsInStats | src/utils/rateLimiter.js:23-152 | after an allowed request the statistics report each use within its limit and the request in the burst list |
| WindowRateLimiter.CeilSeconds | src/utils/rateLimiter.js:188 | the least number of whole seconds that covers the time |
| WindowRateLimiter.RemainingTime | src/utils/rateLimiter.js:184-196 | the seconds until the hourly window resets when it is used up, else until the daily one resets when that is, else 0 |
| WindowRateLimiter.RateLimiter.constructor | src/utils/rateLimiter.js:4-21 | the configuration or its default, and three empty tables |
| WindowRateLimiter.RateLimiter.CheckLimit | src/utils/rateLimiter.js:23-51 | the verdict and the new tables are Check's |
| WindowRateLimiter.RateLimiter.CheckBurstLimit | src/utils/rateLimiter.js:53-69 | the user's burst list is pruned and the check passes exactly when fewer than burst_limit times remain; the other tables are untouched |
| WindowRateLimiter.RateLimiter.CheckHourlyLimit | src/utils/rateLimiter.js:71-90 | the user's hourly window is created or restarted as Refresh says and the check passes exactly when its count is under the limit |
| WindowRateLimiter.RateLimiter.CheckDailyLimit | src/utils/rateLimiter.js:92-111 | the same for the daily window |
| WindowRateLimiter.RateLimiter.RecordRequest | src/utils/rateLimiter.js:113-129 | the new tables are RecordIn's |
| WindowRateLimiter.RateLimiter.GetUserStats | src/utils/rateLimiter.js:131-152 | the statistics are StatsOf's |
| WindowRateLimiter.RateLimiter.GetRemainingTime | src/utils/rateLimiter.js:184-196 | the time is RemainingTime's |
| WindowRateLimiter.RateLimiter.Cleanup | src/utils/rateLimiter.js:154-182 | the new tables are the cleaned ones |
| WindowRateLimiter.RateLimiter.CleanupHourly | src/utils/rateLimiter.js:158-162 | exactly the expired hourly windows are deleted; the other tables are untouched |
| WindowRateLimiter.RateLimiter.CleanupDaily | src/utils/rateLimiter.js:164-168 | exactly the expired daily windows are deleted; the other tables are untouched |
| WindowRateLimiter.RateLimiter.CleanupBurst | src/utils/rateLimiter.js:171-179 | every burst list is pruned and the empty ones deleted; the other tables are untouched |
| WindowRateLimiter.DisabledAllowsAll | src/utils/rateLimiter.js:23-26 | a disabled limiter passes every request and records nothing |
| WindowRateLimiter.RecordedIffAllowed | src/utils/rateLimiter.js:30-50 | a request is recorded exactly when it passes; a failing check leaves the later checks' tables alone |
| WindowRateLimiter.BurstBound | src/utils/rateLimiter.js:53-69 | within any 60 seconds at most burst_limit requests of a user pass |
| WindowRateLimiter.HourlyWindowBound | src/utils/rateLimiter.js:71-90 | while the hourly window has not expired, the passing requests are at most what is left of requests_per_hour |
| WindowRateLimiter.PruneTwice | src/utils/rateLimiter.js:172-174 | pruning again later is the same as pruning once later |
| WindowRateLimiter.CheckLocal | src/utils/rateLimiter.js:23-111 | a check depends only on the user's pruned burst list and refreshed windows |
| WindowRateLimiter.CleanupUnobservable | src/utils/rateLimiter.js:154-182 | a cleanup before a check changes neither the verdict nor the user's burst list, nor the counters of a passing request |
| Fallback.MaxRetries | src/ai/aiManager.js:68 | a present non-zero value is used, otherwise 2 |
| Fallback.Preferred | src/ai/aiManager.js:67 | a present non-empty name is used, otherwise the default |
| Fallback.Candidates | src/ai/aiManager.js:72-75 | a prefix of the first occurrences of the preferred name and the registry, of exactly the length slice(0, maxRetries + 1) gives (negative ends counted back), starting with the preferred one |
| Fallback.CandidatesOfRegisteredPreferred | src/ai/aiManager.js:72-75 | for a registered preferred name, the candidates are that name and then the other registered names in order, cut by slice(0, maxRetries + 1) |
| Fallback.AttemptOf | src/ai/aiManager.js:52-61 | an unregistered name throws the not-found error; a registered one does what its provider does |
| Fallback.FirstUsable | src/ai/aiManager.js:79-106 | the first candidate whose result is usable, every one before it unusable; none when no candidate is usable |
| Fallback.LastFailure | src/ai/aiManager.js:77-105 | there is no last error exactly when every candidate was skipped as unavailable |
| Fallback.RunCharacterised | src/ai/aiManager.js:79-115 | the loop returns the first usable candidate's result, and otherwise ALL_PROVIDERS_FAILED with the last failure seen |
| Fallback.AllFailedIffNoneUsable | src/ai/aiManager.js:108-115 | ALL_PROVIDERS_FAILED exactly when no candidate is usable; otherwise a usable result |
| Fallback.UnavailableSkipped | src/ai/aiManager.js:84-87 | an unavailable candidate changes neither the result nor the last error |
| Fallback.TryInOrder | src/ai/aiManager.js:79-115 | the loop's result is Run's, and no candidate after the one returned is consulted |
| Fallback.HealthOf | src/ai/aiManager.js:133-151 | healthy, unavailable or error exactly as the probe answered true, false or threw; available only when healthy; an error message only when it threw |
| Fallback.CheckProvidersHealth | src/ai/aiManager.js:128-155 | one entry per registered provider, in registration order |
| AiManager.CompletionTokens | src/ai/aiManager.js:180-183 | the smaller of twice the prompt tokens and the provider's budget, 4000 when unset |
| AiManager.CostTokens | src/ai/aiManager.js:179-185 | the prompt tokens are the provider estimate (which covers the prompt at three characters a token) and the completion tokens are CompletionTokens of them: twice the estimate, capped by the budget (4000 when unset) |
| AiManager.Manager.constructor | src/ai/aiManager.js:8-47 | the default provider is the configured one or openai; openai is registered exactly when configured and keyed |
| AiManager.Manager.GetProvider | src/ai/aiManager.js:52-61 | the asked-for or default name when registered, else the not-found error naming it |
| AiManager.Manager.Generate | src/ai/aiManager.js:66-116 | the result is the fallback loop's over the candidates of the preferred provider and the registry |
| AiManager.Manager.CheckHealth | src/ai/aiManager.js:128-155 | one health entry per registered provider, in order |
| AiManager.Manager.GetBestProvider | src/ai/aiManager.js:198-220 | an error exactly when nothing is registered; a cheap or high-quality request prefers openai; any other the default; else the first registered name |
| AiManager.CandidatesOfFreshPreferred | src/ai/aiManager.js:72-75 | with distinct registered names, the candidates are the preferred name then the registry, cut to maxRetries + 1 |
| BaseAiProvider.EstimateTokens | src/ai/baseProvider.js:46-49 | a third of the length, rounded up |
| BaseAiProvider.MaxTokens | src/ai/baseProvider.js:66 | the configured budget when present and non-zero, else 4000 |
| BaseAiProvider.ValidatePrompt | src/ai/baseProvider.js:56-70 | only a non-blank string is valid, and then exactly when its estimate is under 80% of the budget |
| BaseAiProvider.PromptLengthBound | src/ai/baseProvider.js:66-69 | a valid prompt is shorter than 2.4 characters per budget token; two characters shorter than that always passes |
| BaseAiProvider.HandleError | src/ai/baseProvider.js:77-113 | a failure naming the provider; 401, 429 and 402 map to their codes; anything else is UNKNOWN_ERROR with the error's own message when it has one |
| BaseAiProvider.FormatResponse | src/ai/baseProvider.js:121-132 | a success naming the provider with the trimmed content |
| BaseAiProvider.FormatResponseMetadata | src/ai/baseProvider.js:126-130 | tokensUsed is estimated from the untrimmed content unless the caller sets it, and every caller key reaches the metadata unchanged |
| Cli.IndexOf | src/cli.js:117 | the first position of the flag, -1 exactly when it is absent |
| Cli.ArgValueIff | src/cli.js:116-119 | a flag has a value exactly when it occurs before the last argument, and the value follows its first occurrence |
| Cli.ArgValue | src/cli.js:116-119 | no value for a flag that does not occur; a value is the argument right after the flag's first occurrence (ArgValueIff adds that there is one exactly when the flag occurs before the last argument) |
| Cli.FirstOccurrenceWins | src/cli.js:116-119 | a flag given twice takes the value after its first occurrence |
| Cli.FirstNonFlag | src/cli.js:38 | the first argument not starting with "--", every earlier one a flag; none when all are flags |
| Cli.Topic | src/cli.js:38 | there is a topic exactly when there is an argument |
| Cli.TopicIsFirstPlain | src/cli.js:38 | the topic is the first non-empty argument that is not a flag when all before it are flags |
| Cli.AllFlagsTopic | src/cli.js:38 | when every argument is a flag, the first one is the topic |
| Cli.GenerateMain | src/cli.js:11-30 | usage exactly without arguments; help exactly when --help is among them |
| Cli.GenerateIff | src/cli.js:32-45 | generation is asked for exactly when there are arguments, none is --help, the configuration loaded and the topic is not empty; provider and model are the flags' values or null |
| Cli.FlagValueTakenAsTopic | src/cli.js:38-39 | a flag's value written before the topic is taken as the topic as well |
| Cli.OrDefault | content-generator/src/testImage.js:28-30 | a present non-empty value, otherwise the fallback |
| Cli.Limit | content-generator/src/testImage.js:29 | never 0 |
| Cli.LimitValues | content-generator/src/testImage.js:29 | a non-zero number in decimal is the limit; a missing or zero limit gives 5 |
| Cli.ImageMain | content-generator/src/testImage.js:10-53 | usage exactly without arguments; no providers exactly when no health check reports one available |
| Cli.ImageDefaults | content-generator/src/testImage.js:27-30 | with only a keyword the search uses unsplash, 5 images and landscape |
| Deploy.Extension | scripts/build-and-deploy.js:130 | the lower-cased text after the last dot, itself without a dot |
| Deploy.ContentTypeOfName | scripts/build-and-deploy.js:129-151 | the content type depends only on the lower-cased text after the last dot |
| Deploy.TypedIff | scripts/build-and-deploy.js:132-150 | an extension has a type of its own exactly when it is one of the table's fifteen keys |
| Deploy.ContentType | scripts/build-and-deploy.js:129-151 | a file gets a type other than application/octet-stream exactly when its extension is one of the table's keys; ContentTypeOfName and ContentTypeIgnoresCase state what the type depends on |
| Deploy.ContentTypeIgnoresCase | scripts/build-and-deploy.js:130 | an upper-case extension gets the type of its lower-case spelling |
| Deploy.CacheControl | scripts/build-and-deploy.js:153-167 | exactly the static extensions are cached for a year, exactly html for an hour, the rest for a day |
| Deploy.StaticAssetsTyped | scripts/build-and-deploy.js:132-166 | every extension cached for a year has a type of its own; eot, json and xml have one but are cached for a day |
| Deploy.StaticAreTyped | scripts/build-and-deploy.js:132-166 | every extension cached for a year is a key of the content-type table |
| Deploy.NormalizeKey | scripts/build-and-deploy.js:57 | every backslash becomes a slash and nothing else changes |
| Deploy.NormalizeKeyFixes | scripts/build-and-deploy.js:57 | normalising twice is normalising once; a path without backslashes is its own key |
| Deploy.KeyOfSegments | scripts/build-and-deploy.js:56-57 | a path joined with either separator becomes its segments joined with '/' |
| Deploy.ObjectFor | scripts/build-and-deploy.js:56-68 | the S3 key never holds a backslash, and for plain segments joined with either separator it is the segments joined with '/'; UploadedObject adds the type and caching |
| Deploy.UploadPlan | scripts/build-and-deploy.js:40-79 | the commands uploadToS3 would send: none without a bucket name; otherwise one command per file, in order |
| Deploy.SendInOrder | scripts/build-and-deploy.js:55-78 | the commands are sent in order up to and including the first whose send throws; the exit code is 1 exactly when a send threw, and 0 after every command went through |
| Deploy.UploadToS3 | scripts/build-and-deploy.js:40-79 | without a bucket name nothing is sent and the exit code is 1; otherwise the plan's commands are sent as SendInOrder states |
| Deploy.UploadedObject | scripts/build-and-deploy.js:55-68 | whatever the separator, a file's key is its segments joined with '/' and its type and caching come from its extension |
| Deploy.ObjectFromExtension | scripts/build-and-deploy.js:56-67 | the command's key is the normalised relative path and its type and caching follow the shared extension |
| Deploy.ObjectOfLast | scripts/build-and-deploy.js:56-57 | a file's key is its segments joined with '/', and both its path and its key end with its name |
| Deploy.ExtensionOfSuffix | scripts/build-and-deploy.js:130 | anything ending in name.ext has the lower-cased ext as its extension |
| ConfigLoader.Member | content-generator/src/utils/config.js:55 | undefined once the value is undefined or null; an object's own entry otherwise |
| ConfigLoader.WalkAppend | content-generator/src/utils/config.js:54-56 | following a path is following its first part and then the rest |
| ConfigLoader.WalkStops | content-generator/src/utils/config.js:55 | once a value on the way is undefined or null, the rest of the path gives undefined |
| ConfigLoader.TwoPartPath | content-generator/src/utils/config.js:54-56 | a two-part path such as bot.name is two property reads |
| ConfigLoader.GetNested | content-generator/src/utils/config.js:54-56 | an undefined or null object gives undefined for every path, and a path without a dot is one property read; TwoPartPath and WalkStops state the longer paths |
| ConfigLoader.FirstMissing | content-generator/src/utils/config.js:39-43 | the first required field whose value is falsy, every earlier one truthy; none exactly when all are truthy |
| ConfigLoader.ProviderCheck | content-generator/src/utils/config.js:46-49 | passes exactly when providers is an object-like value whose entry for the default provider is truthy |
| ConfigLoader.NoneMissingIff | content-generator/src/utils/config.js:31-43 | the loop finds nothing missing exactly when the five required fields are truthy |
| ConfigLoader.ProviderErrorIff | content-generator/src/utils/config.js:46-49 | with the default provider set, the check passes exactly when it names a truthy entry of ai.providers |
| ConfigLoader.ValidationError | content-generator/src/utils/config.js:30-52 | a configuration passes exactly when the five fields are truthy and the default provider is listed |
| ConfigLoader.ConfigStore.GetConfig | content-generator/src/utils/config.js:58-63 | the cached configuration when it is truthy, and the not-loaded error otherwise |
| ConfigLoader.PollingFalseRejected | content-generator/src/utils/config.js:34-41 | polling: false fails validation, and with bot.name and bot.version set it is the field reported |
| ConfigLoader.ValidateConfig | content-generator/src/utils/config.js:30-52 | the loop's verdict is ValidationError's |
| ConfigLoader.Load | content-generator/src/utils/config.js:8-28 | a truthy cache is returned as is; every failure carries the load prefix; a read or parse failure leaves the cache alone; a fresh parse is cached and is Ok exactly when it validates |
| ConfigLoader.Current | content-generator/src/utils/config.js:58-63 | the cached value exactly when it is truthy, otherwise the not-loaded error |
| ConfigLoader.LoadedStaysLoaded | content-generator/src/utils/config.js:9-11 | after a successful load every later load returns the same value, whatever the file now says |
| ConfigLoader.InvalidConfigServedNext | content-generator/src/utils/config.js:16-19 | a truthy value that fails validation stays cached, so the next load and getConfig return it unvalidated |
| ConfigLoader.ConfigStore.constructor | content-generator/src/utils/config.js:6 | nothing is cached |
| ConfigLoader.ConfigStore.LoadConfig | content-generator/src/utils/config.js:8-28 | the new cache and the result are Load's |
| Strs.TrimStart | src/bot/commands.js:133 | only leading white space is removed, and what remains does not start with it |
| Strs.TrimEnd | src/bot/commands.js:133 | only trailing white space is removed, and what remains does not end with it |
| Strs.TrimEmptyIffAllSpace | src/bot/commands.js:133 | a string trims to nothing exactly when every character is white space |
| Strs.Trim | src/bot/commands.js:133 | never longer than the input, and a non-empty result neither starts nor ends with white space |
| Strs.TrimUnspaced | src/bot/commands.js:70 | a string that neither starts nor ends with white space trims to itself |
| Strs.Split | src/bot/commands.js:70 | at least one piece, none containing the separator |
| Strs.JoinSplit | src/bot/commands.js:77-87 | joining the pieces of a split with the separator gives the string back |
| Strs.SplitJoin | src/bot/commands.js:70 | splitting a join of separator-free pieces gives the pieces back |
| Strs.SplitAround | src/bot/commands.js:77 | splitting at a separator the first piece lacks peels that piece off |
| Strs.LastPiece | content-generator/src/utils/blogIntegration.js:47 | separator-free, and a suffix of the string; the whole string when it has no separator |
| Strs.LastPieceAfter | scripts/build-and-deploy.js:130 | what follows the last separator is the last piece |
| Strs.ReplaceAllAbsent | content-generator/src/generators/promptManager.js:129 | replacing a pattern that does not occur leaves the string as it was |
| Strs.ReplaceAll | content-generator/src/generators/promptManager.js:129 | a replacement as long as the pattern keeps the length, and replacing a pattern by itself changes nothing |
| Strs.ReplaceAllFirst | content-generator/src/generators/promptManager.js:129 | replace-all substitutes the first occurrence and carries on after it |
| Strs.DigitPrefix | src/bot/commands.js:268 | the longest run of decimal digits at the start |
| Strs.NatToStringValue | src/bot/commands.js:172 | the digits written for a number have that number as their value |
| Strs.ParseIntOfIntToString | src/bot/commands.js:70 | parseInt of a printed integer gives the integer back |
| Strs.ParseInt | src/bot/commands.js:70 | a number is read only from a text holding a digit, and a negative one only from a text holding a '-' |
| Strs.ParseIntBefore | src/bot/rateLimiter.js:183-198 | an integer printed before text that does not start with a digit parses back as itself |
| Strs.Lower | scripts/build-and-deploy.js:130 | every character lower-cased, the length kept |
| Js.Keys | content-generator/src/utils/config.js:55 | the keys of an object's entries, in order |
| Js.Get | content-generator/src/utils/config.js:55 | a property is found exactly when the object has the key, and it is one of its entries |
| Js.Replace | src/bot/commands.js:239 | assigning an existing property keeps the keys and their order |
| Js.GetReplace | src/bot/commands.js:239 | after replacing a property it reads as the new value, the others as before |
| Js.GetPut | src/ai/baseProvider.js:126-130 | reading a property right after assigning it gives the assigned value; other properties are untouched |
| Js.KeysPut | src/ai/baseProvider.js:126-130 | an existing key keeps its place, a new key goes last |
| Js.GetAssign | src/ai/baseProvider.js:126-130 | after a spread merge a property reads as in the later object when it has it, otherwise as in the earlier |
| Js.HasKeyAssign | src/ai/baseProvider.js:126-130 | the merged object has exactly the keys of both |
| Seqs.Dedupe | src/ai/aiManager.js:74 | no repeats, the same elements, no longer than the input (their order is stated by DedupeFirstOrder) |
| Seqs.DedupeHead | src/ai/aiManager.js:73-74 | the first element leads the de-duplicated sequence |
| Seqs.DedupeDistinct | src/ai/aiManager.js:74 | a sequence without repeats is unchanged |
| Seqs.DedupeFirstOrder | src/ai/aiManager.js:74 | the kept elements are ordered by their first index in the input, as indexOf-based filtering keeps them |
| Seqs.FirstIndex | src/ai/aiManager.js:74 | indexOf of a member: a position holding it with no earlier copy |
| Seqs.DedupeRepeatedHead | src/ai/aiManager.js:73-74 | a head repeated later in a repeat-free rest stays in front and its later copy is dropped |
| Seqs.SliceTo | src/ai/aiManager.js:75 | a prefix, of length end clamped to the sequence, a negative end counting back from the end |
| Seqs.Keep | src/bot/rateLimiter.js:95 | a subsequence of the input holding every copy of each element that passes and nothing else |
| Paths.PushAllAbsolutePlain | content-generator/src/utils/blogIntegration.js:205 | normalising an absolute path never leaves an empty, "." or ".." segment |
| Paths.Join | content-generator/src/utils/blogIntegration.js:48 | the result is absolute exactly when the base is, an absolute base with plain segments keeps only plain segments, and a plain file name is appended as exactly one segment |
| Paths.Resolve | content-generator/src/utils/blogIntegration.js:205 | a working directory of plain segments gives a location of plain segments, and a plain name resolves to the working directory followed by that name |
| Paths.PushAllPlain | content-generator/src/utils/blogIntegration.js:261 | joining plain segments just appends them |
| Paths.ParseShow | content-generator/src/utils/blogIntegration.js:261 | the text of an absolute path with plain segments normalises back to that path |
| Paths.LastPieceShow | content-generator/src/utils/blogIntegration.js:47-48 | the last piece after '/' of such a path is its last segment |
| Files.Write | content-generator/src/generators/markdownGenerator.js:44 | the file at the location gets the content and no other file changes |
| Files.WriteValid | content-generator/src/generators/markdownGenerator.js:44 | writing a file where no directory is and below no file keeps the file system consistent |
| Files.CopyFile | content-generator/src/utils/blogIntegration.js:66 | succeeds exactly when the source is a file and the destination is reachable and not a directory; then only the destination changes, to the source's content |
| Files.ChildNames | content-generator/src/utils/blogIntegration.js:258 | exactly the names of the entries one level below the directory |
| Files.ListDir | content-generator/src/utils/blogIntegration.js:258 | each child once, exactly the files and directories directly below an existing directory |
| Files.MaxDepth | content-generator/src/utils/blogIntegration.js:256-279 | no file location is deeper |
| Files.ChildKind | content-generator/src/utils/blogIntegration.js:262-270 | every listed child is a file or a directory, never both |

## Left out

- Network and vendor SDK calls are inputs naming their outcome:
  - the OpenAI client;
  - the Unsplash HTTP client and its availability ping;
  - the Telegraph account and page API;
  - the S3 client (whether each send throws).
- The Unsplash provider's getRandomImage, getImageById, trackDownload, getCollections and searchInCollection are not modelled. They are single HTTP calls with result formatting.
- ImageManager.getRandomImage, both managers' getUsageStats and getGlobalStats are not modelled. They forward to a provider or return constant placeholders.
- The image and AI base classes' abstract generate and searchImages, which only throw, are not modelled.
- The Telegram transport is abstract. Replies are values naming what is sent, without message text, Markdown or emoji; the welcome, help, templates, settings and status screens are reply constants.
- The bot's /publish runs `exec` on a sync script. This is a reply constant; the shell-out and the deploy script's build step (`execSync`) are left out.
- gray-matter, slugify, marked and yaml.parse are function parameters. Nothing is assumed about a stringify and parse round trip, so no read-back property of written drafts is claimed.
- The HTML rewriting in telegraph.js (convertMarkdownToHtml, processParagraph, processList and the HTML-to-node conversion) is left out; only the inline-markup scanner is modelled.
- Saving the Telegraph cache to disk is modelled as always succeeding; a failed save, which the code only logs, is not.
- Date.now() and new Date() are parameters. The setInterval cleanup timers are replaced by explicit calls to Cleanup.
- Dates are given as text and are not formatted by the model.
- Floating-point arithmetic is replaced by integer cross-multiplication:
  - the orientation ratios;
  - the 80% prompt budget;
  - Math.ceil in the reading time and wait times.
- Strs.Lower: lower-casing covers the Latin capitals A-Z and the Cyrillic capitals U+0400-U+042F only. Other Unicode case mappings (accented Latin, Greek, Cyrillic letters beyond U+042F) are not modelled; toLowerCase would lower them.
- Placeholders are replaced literally. The regular-expression meaning of `{key}` and the `$` patterns of String.replace are not modelled.
- parseInt is modelled on leading white space, an optional sign and decimal digits. Hexadecimal prefixes, Infinity and precision loss for long digit runs are not.
- Concurrency is not modelled: each handler runs to completion, and the two-step canMakeRequest then recordRequest cannot interleave.
- The markdown generator's getFileMetadata and createBackup are not modelled; both are file reads and writes with no policy of their own.
- The blog integration's checkBlogFolderAccess and createSymlink are not modelled; both are probes of the real file system.
- The deploy script's getAllFiles, cleanupOldFiles, buildSite and main are left out. The upload plan takes the file list as its input.
- UploadToS3: a readFileSync that throws, which the code also ends with exit code 1, is not modelled; only a throwing send stops the upload.
- BuildFrontmatter: a list-valued frontmatter_template, which template validation accepts, comes back without the additional data, because Js.Value cannot hold an array with named properties. In the code, Object.assign puts each additional key on the array, replacing an item when the key is an index.
- contentGenerator.js (generateCompleteArticle, syncWithBlog, publishDraft, getBlogIntegrationStats) is not part of this model. Its results are inputs, and syncWithBlog and publishDraft are taken to return the blog integration's results unchanged.
- openaiProvider.js and anthropicProvider.js are not part of this model. Provider behaviour is an input.
- The markdown generator methods getDrafts and updateDraft that src/bot/commands.js calls are not part of this model. Their results are inputs.
- src/utils/config.js, src/media/baseImageProvider.js, src/media/imageManager.js and content-generator/src/media/unsplashProvider.js are not part of this model. The modules follow the content-generator copies of the first three and src/media/unsplashProvider.js.
- The bot's cached drafts are values. The code mutates a draft object inside the cached array, and that aliasing is not modelled; the cached list is replaced with an updated copy.
- String lengths count Dafny `char`s. The code's `.length` counts UTF-16 code units, which differ only outside the Basic Multilingual Plane. This affects the bot's preview, the Telegraph cache key, the token estimate (`BaseAiProvider.EstimateTokens`, src/ai/baseProvider.js:48) and the reported size of a written draft (content-generator/src/generators/markdownGenerator.js:52).
- Files.ListDir: readdir's order (content-generator/src/utils/blogIntegration.js:258) is the operating system's. The model returns children in the order they were created. The scans, and so the five files the sync report names, follow that order.
- Js.Value has no `undefined`. A missing property reads as null, so where the code interpolates a missing field into text (an attribution, an image link), JavaScript prints "undefined" and the model prints "null".
- Js.Num holds integers only. JSON and YAML numbers with a fraction, such as 0.5, cannot be represented; the configuration and template values the code reads are integers, strings, booleans, lists and objects.
- Objects keep their keys in insertion order. JavaScript lists integer-like keys first, in ascending order; this would change the order of such keys in frontmatter and the order in which buildPrompt substitutes them.
- Files: directories exist only as the prefixes of files, so an empty directory cannot exist. The folders that `mkdir -p` leaves behind when the following writeFile or copyFile fails disappear in the model; the "a failure changes nothing" clauses of GenerateMarkdownFile and CopyToBlogs rely on this.
- GenerateMarkdownFile: in the bot's copy a null or otherwise non-string content reaches gray-matter's stringify unchanged. In the code stringify throws on it and the call reports success: false; in the model stringify is a total function parameter, so such content is written as whatever stringify returns.
- BlogIntegration.FileEntry: the size and modification time that scanDirectory collects with fs.stat are not kept. No modelled operation reads them.
- Inherited prototype properties (for example `toString` read as a key of a plain object) are not modelled. Property reads see own keys only.
- ConfigLoader.Member: a property read on a non-object value other than null (a string, number or array) gives undefined. JavaScript would give that value's own property, such as a string's `length`. Configuration paths only pass through objects.
