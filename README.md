# Portfolio background configuration and iframe-cube selection, in Dafny

This project models two small pieces of a personal portfolio website.

- **Shader configuration** (module `ShaderConfig`, `shader_config.dfy`).
  There are two constant tables. `colorPalettes` holds the colour slots of the `about` and `home` pages. `shaderSets` holds, per page, its named fragment shaders, its palette and a harmonic block: ratios plus a base interval.
  `getShaderSetForPage` is the total function that picks a set for a page path. `"/"` and `""` get `home`. Every other string gets `about`.
  Shader sources are opaque tokens (`ShaderSource`). Colours are their 24-bit hex literals (`Rgb24`). Ratios are exact `real`s.
- **Iframe-cube site selection** (module `IframeCubeStore`, `iframe_cube_store.dfy`).
  This part holds the six-entry demo-site catalogue and the `selectedSites` cell that holds the four face URLs. The cell is the class `SelectedSites`, whose field `value` is the published array.
  `UpdateSite` copies that array element by element (the source's `[...currentSites]`). It writes the URL into the copy only when the index lies in [0, 4). It then publishes the copy. The previously published array is never written.

Every contract is about one of two things. The first is what the route resolution returns and what the two bundles contain. The second is slot-by-slot behaviour: an update changes exactly the named face, an out-of-range index changes nothing, the length stays four, and the old snapshot is untouched. The lemmas beside `Updated` relate several updates: last write wins, writes to different faces commute, and writing a face's own URL back changes nothing.

Observation: the about ratio list ends with `10/6`, which is the same ratio as the `5/3` at index 4 (`AboutRatioRepeats`). The list therefore holds eight distinct ratios, not nine. Nothing in the code says whether that was meant, so it is recorded here and not as a defect.

## Model

| member | source | states |
|---|---|---|
| `ShaderConfig.GetShaderSetForPage` | src/lib/graphics/shaderConfig.js:72-79 | Every string resolves to a set in `shaderSets`, and that set is well formed. A path gets the one-shader `terminal` set exactly when it is `"/"` or `""`. A home path gets `shaderSets.home` with base interval 3000. Any other path gets `shaderSets.about` with the six about shaders. |
| `ShaderConfig.HomeIffHomePath` | src/lib/graphics/shaderConfig.js:73-78 | The result is the home set if and only if the path is `"/"` or `""`. It is the about set if and only if the path is anything else. The two sets differ. |
| `ShaderConfig.ResolutionCoversRegistry` | src/lib/graphics/shaderConfig.js:72-79 | A set is the answer for some path if and only if it is one of the sets in `shaderSets`. Resolution never yields anything else, and both table entries are reachable. |
| `ShaderConfig.ResolutionDependsOnlyOnRouteClass` | src/lib/graphics/shaderConfig.js:72-79 | Determinism: two paths that are both home paths, or both not, get the same set. |
| `ShaderConfig.ValuesOfRegistry` | src/lib/graphics/shaderConfig.js:40-69 | The shader-set table holds exactly two values, the home set and the about set. |
| `ShaderConfig.HomeSetShape` | src/lib/graphics/shaderConfig.js:58-68 | The home set has exactly one shader, `terminal`. Its palette is `colorPalettes.home`, with exactly the slots color1 = 0xfafafa and color2 = 0xf0f0f0. It has 4 ratios and base interval 3000. |
| `ShaderConfig.AboutSetShape` | src/lib/graphics/shaderConfig.js:16-56 | The about set has exactly six shaders: aufbau, niels, raum, closed_loop, new, garrett. Its palette is `colorPalettes.about`, with exactly the slots color1..color8 holding 0xff6b6b, 0xffd93d, 0x6bcbef, 0x32a852, 0x995d81, 0xed6663, 0x4b89dc and 0xf0a07c. It has 9 ratios and base interval 2000. |
| `ShaderConfig.TablesShape` | src/lib/graphics/shaderConfig.js:16-69 | `colorPalettes` and `shaderSets` are keyed by exactly `about` and `home`. `commonVertexShader` is none of the fragment shaders either page uses. |
| `ShaderConfig.NamesDistinct` | src/lib/graphics/shaderConfig.js:16-50 | The six about shader names are distinct and do not include `terminal`. The about palette has eight distinct slot names and the home palette two. |
| `ShaderConfig.RegistryWellFormed` | src/lib/graphics/shaderConfig.js:40-68 | Every set in the table has a shader, a colour slot and a harmonic block whose ratio list is non-empty, starts with 1 and is positive throughout. |
| `ShaderConfig.RatiosWithinOctave` | src/lib/graphics/shaderConfig.js:53-65 | In both sets every ratio lies in [1, 2], and each list begins 1, 2. |
| `ShaderConfig.AboutRatioRepeats` | src/lib/graphics/shaderConfig.js:53 | The about ratios at index 4 (5/3) and index 8 (10/6) are equal. |
| `IframeCubeStore.CatalogueNames` | src/lib/store/iframeCubeStore.js:4-11 | `availableSites` has six entries named SvelteKit, Three.js, Example.com, Wikipedia, Google and DuckDuckGo, in that order. |
| `IframeCubeStore.Names` | src/lib/store/iframeCubeStore.js:4-11 | The names of a site list: same length, entry i is the name of site i. |
| `IframeCubeStore.Urls` | src/lib/store/iframeCubeStore.js:15 | `map(site => site.url)`: the result has the input's length, and entry i is the URL of site i. |
| `IframeCubeStore.InitialSelection` | src/lib/store/iframeCubeStore.js:15 | The cell's initial value has four entries, and entry i is the URL of catalogue entry i. |
| `IframeCubeStore.InitialSelectionIsFirstFourUrls` | src/lib/store/iframeCubeStore.js:4-15 | The catalogue has six entries. The initial selection is exactly the SvelteKit, Three.js, Example.com and Wikipedia URLs, in that order. |
| `IframeCubeStore.Updated` | src/lib/store/iframeCubeStore.js:20-24 | The selection after an update keeps length 4. For an index in [0, 4), slot index holds the URL. Every other slot keeps its value. An index outside [0, 4) leaves the selection equal to the old one. |
| `IframeCubeStore.UpdatedLastWriteWins` | src/lib/store/iframeCubeStore.js:18-26 | Two updates of the same face amount to the second one. |
| `IframeCubeStore.UpdatedCommute` | src/lib/store/iframeCubeStore.js:18-26 | Updates of two different faces give the same selection in either order. |
| `IframeCubeStore.UpdatedSameUrlIsIdentity` | src/lib/store/iframeCubeStore.js:20-24 | Writing a face's current URL back leaves the selection unchanged. |
| `IframeCubeStore.DefaultSelectionScenario` | src/lib/store/iframeCubeStore.js:15-24 | Updating face 2 of the initial selection to a new URL changes only face 2. The indices -1 and 4 leave the initial selection as it is. |
| `IframeCubeStore.SelectedSites.Sites` | src/lib/store/iframeCubeStore.js:15 | The cell's current value, read as a sequence with one entry per array slot. |
| `IframeCubeStore.SelectedSites.constructor` | src/lib/store/iframeCubeStore.js:15 | The cell starts with a fresh four-element array holding the initial selection. |
| `IframeCubeStore.SelectedSites.UpdateSite` | src/lib/store/iframeCubeStore.js:18-26 | The cell then holds a fresh array whose contents are `Updated(old contents, index, url)`. Its length stays 4. The previously published array's contents are unchanged. |

## Left out

- Svelte's `writable` cell: `update`, `set`, `subscribe` and subscriber notification live in `svelte/store`, which is not part of this model. The cell is a plain field that `UpdateSite` replaces. The model makes no claim about notification order, or about whether an out-of-range update notifies. The source always publishes a new array, even when it is equal to the old one, and the model does the same.
- `src/lib/store/store.js` is not part of this model. It holds only cell declarations and static lists, with no logic of its own.
- GLSL shader bodies and their imports are opaque assets. Each is a distinct `ShaderSource` token. `commonVertexShader` is the constant `CommonVertexShader`.
- `THREE.Color` objects hold float channels. Each colour is modelled as the hex literal it is built from.
- Ratios are exact reals. The JavaScript floating-point values of `3/2`, `10/6` and so on, and their rounding, are not modelled.
- `GetShaderSetForPage` takes a string. A non-string argument, which JavaScript would also send to `about`, is outside the model.
- `UpdateSite` takes an integer index. The JavaScript bound test also admits fractional or string indices; those are not modelled.
- `Updated` requires a four-element selection. In the code shown, the cell is only written by `updateSite`, which keeps four entries, and `Valid()` records that length. A caller that sets an array of another length through the exported cell is outside the model; the JavaScript would then behave differently (a three-element array updated at index 3 grows to four entries).
- Nothing in the code checks at construction time that a palette covers the slots its shaders read, and shaders and slot names are not linked anywhere in it, so the model has no such check either.
- The rendering pipeline, the iframe-cube widget and the router that consume these values are not part of this model.
