# CLIJ entry point and macro documentation template, in Dafny

This project models two pieces of CLIJ, the ImageJ/OpenCL bridge:

* **The `CLIJ` entry point** (`clij_core.dfy`, module `ClijCore`). The OpenCL
  backend is abstract. It is a list of devices, a name lookup, and two yes/no
  answers: whether a kernel executor can be constructed, and what enqueuing it
  reports. Calls into the backend are recorded in an event log. The model covers:
  * device selection by index and by name hint;
  * the process-wide singleton (`getInstance`, `close`, `dispose`);
  * the cache of available device names;
  * the lazily created kernel-executor slot used by `execute`;
  * the alternating key/value `parameters` builder;
  * converter dispatch in `convert`;
  * the buffer and image allocation wrappers.

  The static fields `sInstance` and `cachedAvailableDeviceNames` are fields of a
  `Process` object. A Java constructor can throw, so each one becomes a static
  factory method that returns a `Result`.
* **The HTML documentation template** (`html_documentation.dfy`, module
  `HtmlDocumentation`). It covers:
  * the source and documentation URLs;
  * the author prefix and license suffix of the description;
  * the five-line license truncation;
  * the HTML text with and without links.

`java_strings.dfy` models the `java.lang.String` operations used above:
`contains`, `replace`, and `split` on one character (trailing empty strings are
dropped). It proves the facts the other modules rely on, for example that
replacing a character is the same as splitting on it and joining with the
replacement. `wrappers.dfy` holds `Option` and `Result`.

Device selection follows the code of `CLIJ(String)`:

* The debug message at `CLIJ.java:104` says "Using first GPU device found".
  The loop at lines 106-110 has no break, though, so it keeps the **last**
  device whose name does not contain `"CPU"`.
* A hint that matches no device is not an error. The code falls back silently
  to the last non-CPU device, or to device 0.
* Only an empty device list fails, with the `IndexOutOfBoundsException` of
  `get(0)`.

## Model

| member | source | states |
|---|---|---|
| `ClijCore.ChooseDevice` | src/main/java/net/haesleinhuepf/clij/CLIJ.java:96-117 | the selection loop over all devices returns exactly what the reference selection `SelectDevice` prescribes |
| `ClijCore.LastNonCpuIndex` | src/main/java/net/haesleinhuepf/clij/CLIJ.java:106-110 | the index found from the back is always within the device list |
| `ClijCore.LastNonCpuIndexCorrect` | src/main/java/net/haesleinhuepf/clij/CLIJ.java:106-110 | the index found is that of the last non-CPU device, and none is found exactly when every device name contains "CPU" |
| `ClijCore.SelectDeviceOrder` | src/main/java/net/haesleinhuepf/clij/CLIJ.java:96-117 | a name match wins; otherwise the last non-CPU device; otherwise device 0; the selection fails exactly when there is no match and no device |
| `ClijCore.SelectDeviceIgnoresLookupWithoutHint` | src/main/java/net/haesleinhuepf/clij/CLIJ.java:96-100 | for a null or empty hint the outcome does not depend on the name lookup |
| `ClijCore.Clij.ByIndex` | src/main/java/net/haesleinhuepf/clij/CLIJ.java:62-83 | the deprecated index constructor opens the context of the device at that index, and throws IndexOutOfBounds, with no context created, for any other index |
| `ClijCore.Clij.ByName` | src/main/java/net/haesleinhuepf/clij/CLIJ.java:91-125 | the name-hint constructor opens a context on the selected device, in a fresh instance with an empty executor slot and no converter service; it fails only as the selection does |
| `ClijCore.Clij.Open` | src/main/java/net/haesleinhuepf/clij/CLIJ.java:122 | opening records one context creation for the device and starts with open context and device |
| `ClijCore.Process.constructor` | src/main/java/net/haesleinhuepf/clij/CLIJ.java:51 | the process starts with no singleton, no cached device names (line 158) and an empty backend log |
| `ClijCore.Clij.GpuName` | src/main/java/net/haesleinhuepf/clij/CLIJ.java:150-152 | getGPUName() is the name of the context's device, and getInstance with that name never asks for a switch |
| `ClijCore.Process.GetInstance` | src/main/java/net/haesleinhuepf/clij/CLIJ.java:133-148 | a null hint or one exactly equal to the current GPU name returns the singleton untouched, with no backend call; a different hint closes context and device of the old instance before the new context is created; afterwards the singleton is the returned instance, or null if construction threw; the old instance's executor, converter service and allocations are left as they were |
| `ClijCore.Process.GetDefaultInstance` | src/main/java/net/haesleinhuepf/clij/CLIJ.java:129-131 | `getInstance()` behaves as `getInstance(null)`: an existing singleton is returned unchanged, otherwise one is built for the default selection |
| `ClijCore.Process.GetAvailableDeviceNames` | src/main/java/net/haesleinhuepf/clij/CLIJ.java:158-176 | with a cache the cached names come back and the backend is not probed; otherwise the backend is probed once, and the names of all devices, in order, are both returned and cached |
| `ClijCore.Clij.Execute` | src/main/java/net/haesleinhuepf/clij/CLIJ.java:191-228 | an existing executor is reused and reconfigured with program, kernel, anchor, global sizes and parameters; an empty slot gets a fresh executor on this instance's context, or stays empty with result false when construction fails; on success the result is what enqueue(true) reports |
| `ClijCore.Clij.ExecuteAnchored` | src/main/java/net/haesleinhuepf/clij/CLIJ.java:184-189 | execution without explicit global sizes |
| `ClijCore.Clij.ExecuteUnanchored` | src/main/java/net/haesleinhuepf/clij/CLIJ.java:178-182 | execution anchored at java.lang.Object without global sizes |
| `ClijCore.Clij.Dispose` | src/main/java/net/haesleinhuepf/clij/CLIJ.java:230-236 | dispose closes the context only, drops the converter service, and clears the singleton exactly when it is this instance |
| `ClijCore.Clij.Close` | src/main/java/net/haesleinhuepf/clij/CLIJ.java:303-310 | close closes the context and then the device, returns true, and clears the singleton exactly when it is this instance |
| `ClijCore.Parameters` | src/main/java/net/haesleinhuepf/clij/CLIJ.java:242-248 | succeeds exactly for an even-length list whose key positions hold strings or null; the keys are exactly the key-position arguments, each mapped to the argument after its last occurrence; a non-string key throws ClassCast, otherwise an odd length throws ArrayIndexOutOfBounds |
| `ClijCore.Clij.CreateImageLike` | src/main/java/net/haesleinhuepf/clij/CLIJ.java:250-252 | a new image allocation with the template's descriptor and a new identity |
| `ClijCore.Clij.CreateImage` | src/main/java/net/haesleinhuepf/clij/CLIJ.java:254-261 | a new image allocation with the given dimensions and type, read/write access and single-channel order R |
| `ClijCore.Clij.CreateBufferLike` | src/main/java/net/haesleinhuepf/clij/CLIJ.java:263-265 | a new buffer allocation with the input's dimensions and element type |
| `ClijCore.Clij.CreateBuffer` | src/main/java/net/haesleinhuepf/clij/CLIJ.java:267-276 | a new buffer allocation with the given dimensions and type, best allocation mode, read/write access and one channel |
| `ClijCore.Clij.SetConverterService` | src/main/java/net/haesleinhuepf/clij/CLIJ.java:313-315 | the converter service becomes the one given |
| `ClijCore.Clij.Convert` | src/main/java/net/haesleinhuepf/clij/CLIJ.java:317-327 | the identity short-circuit needs no converter service; otherwise a missing service is created first; the result is the dispatch `ConvertWith` over the service's registry |
| `ClijCore.ConvertIdentity` | src/main/java/net/haesleinhuepf/clij/CLIJ.java:318-320 | a source whose dynamic class the target accepts is returned itself, whatever converters are registered |
| `ClijCore.ConvertUsesExactPairOnly` | src/main/java/net/haesleinhuepf/clij/CLIJ.java:325-326 | registering a converter for any other (source, target) pair does not change the result |
| `ClijCore.ConvertDoesNotChain` | src/main/java/net/haesleinhuepf/clij/CLIJ.java:325-326 | converters for source-to-middle and middle-to-target do not yield a source-to-target conversion |
| `ClijCore.ConvertApplies` | src/main/java/net/haesleinhuepf/clij/CLIJ.java:325-326 | a non-assignable source is converted by the converter registered for its exact dynamic class and the target |
| `HtmlDocumentation.HtmlDocumentationTemplate.constructor` | src/main/java/net/haesleinhuepf/clij/macro/documentation/HTMLDocumentationTemplate.java:23-65 | the fields hold the headline, help text, URLs, author and (possibly shortened) license, and the description is the author line, the given description and the license line, in that order |
| `HtmlDocumentation.HtmlDocumentationTemplate.Create` | src/main/java/net/haesleinhuepf/clij/macro/documentation/HTMLDocumentationTemplate.java:23-65 | the four-argument constructor throws exactly when a short license is asked of a null license, and otherwise builds the template above |
| `HtmlDocumentation.HtmlDocumentationTemplate.CreateWithFullLicense` | src/main/java/net/haesleinhuepf/clij/macro/documentation/HTMLDocumentationTemplate.java:20-22 | the three-argument constructor is the four-argument one with the full license |
| `HtmlDocumentation.HtmlDocumentationTemplate.ToDefaultHtml` | src/main/java/net/haesleinhuepf/clij/macro/documentation/HTMLDocumentationTemplate.java:67-69 | toString() is the description's lines joined by `<br/>`, then "<br/><br/>", the "Parameters: " line and the "Available for: " line |
| `HtmlDocumentation.HtmlDocumentationTemplate.ToHtml` | src/main/java/net/haesleinhuepf/clij/macro/documentation/HTMLDocumentationTemplate.java:71-93 | toString(boolean) has no contract of its own; its text is stated by `PlainHtmlLayout` (without links), `LinkedHtmlWrapsPlain` (with links) and `ToDefaultHtml` |
| `HtmlDocumentation.PlainHtmlLayout` | src/main/java/net/haesleinhuepf/clij/macro/documentation/HTMLDocumentationTemplate.java:79-82 | the text without links is the description's lines joined by `<br/>` (no line break left), then the parameter and dimension lines |
| `HtmlDocumentation.LinkedHtmlWrapsPlain` | src/main/java/net/haesleinhuepf/clij/macro/documentation/HTMLDocumentationTemplate.java:71-93 | the text with links is the headline link, the text without links, and the three-link footer |
| `HtmlDocumentation.SourceUrl` | src/main/java/net/haesleinhuepf/clij/macro/documentation/HTMLDocumentationTemplate.java:31-34 | the source link of lines 31 and 34; its shape is stated by `SourceUrlShape` |
| `HtmlDocumentation.SourceUrlShape` | src/main/java/net/haesleinhuepf/clij/macro/documentation/HTMLDocumentationTemplate.java:29-36 | the source URL is the clij2 root exactly for ".clij2." and ".clijx." packages (else the classic root), then the class name with every dot turned into a slash, then ".java" |
| `HtmlDocumentation.DocsUrl` | src/main/java/net/haesleinhuepf/clij/macro/documentation/HTMLDocumentationTemplate.java:32-35 | the documentation link of lines 32 and 35; it is stated by `DocsUrlClassic`, `DocsUrlClij2Plain`, `DocsUrlClij2StripsPrefix` and `DocsUrlClij2StripsClijxPrefix` |
| `HtmlDocumentation.DocsUrlClassic` | src/main/java/net/haesleinhuepf/clij/macro/documentation/HTMLDocumentationTemplate.java:35 | outside the clij2 family the documentation URL is the docs root, "reference#" and the headline |
| `HtmlDocumentation.DocsUrlClij2Plain` | src/main/java/net/haesleinhuepf/clij/macro/documentation/HTMLDocumentationTemplate.java:32 | in the clij2 family a headline without "CLIJ2_" or "CLIJx_" follows the clij2 docs root and "reference_" unchanged |
| `HtmlDocumentation.DocsUrlClij2StripsPrefix` | src/main/java/net/haesleinhuepf/clij/macro/documentation/HTMLDocumentationTemplate.java:32 | in the clij2 family a "CLIJ2_" prefix is removed from the headline in the documentation URL |
| `HtmlDocumentation.DocsUrlClij2StripsClijxPrefix` | src/main/java/net/haesleinhuepf/clij/macro/documentation/HTMLDocumentationTemplate.java:32 | in the clij2 family a "CLIJx_" prefix is removed from the headline in the documentation URL |
| `HtmlDocumentation.ShortenLicense` | src/main/java/net/haesleinhuepf/clij/macro/documentation/HTMLDocumentationTemplate.java:48-57 | the license truncation; it is stated by `ShortenLicenseKeepsFiveLines` and `ShortenLicenseSingleLine` |
| `HtmlDocumentation.ShortenLicenseKeepsFiveLines` | src/main/java/net/haesleinhuepf/clij/macro/documentation/HTMLDocumentationTemplate.java:48-57 | a license of more than five split lines becomes the text before its fifth line break, followed by "..." |
| `HtmlDocumentation.ShortenLicenseSingleLine` | src/main/java/net/haesleinhuepf/clij/macro/documentation/HTMLDocumentationTemplate.java:49-50 | a license without a line break is kept as it is |

## Left out

- The OpenCL backend is abstract. `getAllDevices` is a fixed device list. `getDeviceByName` is an uninterpreted function. Creating and closing contexts and devices only appends to an event log. Allocation never fails.
- Device capability versions and the CPU/accelerator category are not modelled. Selection only looks at whether a device name contains "CPU".
- `getAvailableDeviceNames` probes `ClearCLBackends.getBestBackend()`. The model assumes it enumerates the same devices as the JOCL backend the constructors use.
- Only values are modelled, not list identity. Java returns the cached list object itself on later calls, and a separate list on the first call.
- CLKernelExecutor is not part of this model. Whether its constructor completes and what `enqueue` reports are uninterpreted functions of its configuration, so build caching and parameter binding are not captured. Its starting parameter map is taken to be empty; `execute` always replaces it.
- `ElapsedTime.measure` is timing and is dropped. Only its body is modelled.
- Debug printing, `forwardStdErr` and `resetStdErrForwarding`, `clinfo`, and the `show` methods are console, stream and GUI plumbing. They are left out.
- The converter service that `new Context(...)` would discover is a fixed registry, `Process.discoveredConverters`. `getConverter` is not part of this model. For a pair with no converter the model takes it to return null, so `convert` throws NullPointer.
- ClearCL's like-creation `createImage(ClearCLImage)` is not part of this model. It is assumed to copy the template's whole descriptor.
- Using a buffer, image or executor after its context is closed is not modelled as an error.
- `NativeTypeEnum` and `ImageChannelDataType` constants are opaque names. Dimensions are unbounded integers, not `long`.
- Concurrency is left out. The static singleton and name cache are unsynchronised shared state.
- `CLIJUtilities.classToName`, the plugin's help text and package string, and the `DocumentationUtilities` URLs are taken as given strings. Null description, dimension or help-text strings are not modelled: Java would print "null" or throw.
- `JavaStrings.Replace` covers only non-empty targets. Every call site uses a constant, non-empty target.
- The demo, the Rotate2D, MeanOfAllPixels and Mean3D modules, and the tests are outside this model's core.
