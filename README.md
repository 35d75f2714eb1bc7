# diffuzers: a verified model of the orchestration logic

diffuzers is a Streamlit front-end over the `diffusers` text-to-image and
image-to-image pipelines. Nearly all of it hands widget values to an external
pipeline. This project models in Dafny the few pieces of self-contained logic
that sit in that glue, and proves properties about them:

- **Fresh token names in `load_embed`.** The tokenizer is a class whose state
  is the set of tokens it knows. If the requested token is already known, the
  loop keeps renaming it to `token[:-1] + "-" + str(i) + ">"`, with
  i = 1, 2, ..., until `add_tokens` accepts a name. The model proves four
  things. Each candidate is at least two characters longer than the one
  before, so no name is tried twice. The loop terminates on every finite
  vocabulary. The returned name is the first candidate the tokenizer did not
  know, and the tokenizer now holds exactly that extra name. A requested name
  that was new comes back unchanged.
  A duplicate token is never an error. The only failure is the one the code
  hits when no name is passed and the embeddings file has its
  "string_to_param" layout: `trained_token` is then unbound.
- **Scheduler substitution.** `X2Image` holds two distinct `Pipeline` objects,
  and each has a scheduler field. `_set_scheduler` raises ValueError for any
  pipeline name other than "text2img" or "img2img", and KeyError for an
  unknown scheduler name. Otherwise it replaces the scheduler of the named
  pipeline only. The new scheduler has the requested class and is built from
  the configuration that the pipeline's current scheduler reports. `_pregen` then forces the image count
  to 1 on the "mps" device and picks the generator. The generate methods pass
  the clamped count to the pipeline and record it in their metadata
  dictionaries.
- **Scheduler order in `app`.** The list of compatible scheduler names keeps
  the dictionary's key order, the order in which each name first occurs in
  `compatibles`. If "EulerAncestralDiscreteScheduler" is in the
  list, it is popped and inserted at the front. The result is a permutation of
  the names, the preferred name comes first, and the other names keep their
  relative order.
- **`clear_memory`.** It deletes "inpainting", "text2img" and "img2text" from
  the session dictionary unless they are preserved. It touches no other key,
  and running it twice is the same as running it once.
- **File layout of `save_images` and `display_and_download_images`.** The
  file system is a map from path to content, plus a set of directories.
  `save_images` does nothing without an output path. An empty output path
  makes the first `os.makedirs` raise FileNotFoundError before anything is
  written. Otherwise it makes every missing ancestor directory along the way,
  as `os.makedirs` does, and writes image i to
  `{output_path}/{module}/{timestamp}/{i}.png` and the metadata to
  `metadata.txt` beside it. Every saved PNG carries the metadata under the
  text key "text2img", whatever the module. The download path names images
  from `1.png` upwards in a temporary directory. The zip archive holds exactly
  the `.png` files of that directory. The directory listing order is not
  fixed, so the model picks entries in an arbitrary order.

External calls are parameters of the model. These are the pipeline
inference, `json.dumps`, the current time and the embeddings file's first key.
PNG encoding, base64 and zip encoding are kept as structured values
(`Png(image, info)`, `DataUri(mime, payload)`, `Zip(entries)`). Schedulers and
their configurations are opaque values, and so are images and session values.
A scheduler records the class and the configuration it was built from. The
configuration it reports as `.config` is a separate opaque function of the
scheduler, given to the `X2Image` constructor.

Files: `wrappers.dfy` (Option, Result, Outcome), `strings.dfy` (`str(n)` of
a natural number and its round trip, plus `endswith`), `utils.dfy` (module
`Utils`, for diffuzers/utils.py) and `x2image.dfy` (module `X2Image`, for
diffuzers/x2image.py).

## Model

| member | source | states |
|---|---|---|
| `Strings.NatToString` | diffuzers/x2image.py:43 | `str(i)` is a non-empty string of decimal digits that starts with '0' only for 0 |
| `Strings.ParseNatToString` | diffuzers/x2image.py:43 | reading `str(n)` back as a decimal number gives n |
| `Strings.NatToStringInjective` | diffuzers/utils.py:90 | distinct numbers give distinct strings, so numbered file names never collide |
| `X2Image.Tokenizer.AddTokens` | diffuzers/x2image.py:39-42 | `add_tokens` returns 0 when the token is already known and 1 otherwise; afterwards the token is known |
| `X2Image.DropLast` | diffuzers/x2image.py:43 | `s[:-1]` is a prefix of s that is one character shorter, or empty when s is empty |
| `X2Image.Rename` | diffuzers/x2image.py:43 | the retry name is at least two characters longer than the refused one |
| `X2Image.RenameCounterReadsBack` | diffuzers/x2image.py:43 | the retry name starts with `token[:-1]` and '-', and the digits before the closing '>' parse back to exactly i |
| `X2Image.Candidate` | diffuzers/x2image.py:40-46 | the k-th name the loop tries, starting from the requested token; how the names grow and that they differ is stated by `CandidateGrowth` and `CandidatesDistinct` |
| `X2Image.CandidateGrowth` | diffuzers/x2image.py:40-46 | after k - j further retries the candidate is at least 2(k - j) characters longer |
| `X2Image.CandidatesDistinct` | diffuzers/x2image.py:40-46 | no two retries try the same name |
| `X2Image.MaxLen` | diffuzers/x2image.py:41 | bounds the length of every known token; this bound makes the loop terminate |
| `X2Image.EventuallyAccepted` | diffuzers/x2image.py:40-46 | candidate number MaxLen/2 + 1 is outside every finite vocabulary, so `add_tokens` accepts a name within that many retries and the loop terminates |
| `X2Image.Resolve` | diffuzers/x2image.py:39-46 | the name the loop ends with is one the vocabulary did not hold |
| `X2Image.ResolveFrom` | diffuzers/x2image.py:39-46 | from any candidate on, the loop stops at a later candidate, and every candidate in between was refused |
| `X2Image.ChosenToken` | diffuzers/x2image.py:38-46 | the chosen name is the first new candidate and every earlier one was known; it is the requested name exactly when that name was new; the retries are bounded by the longest known token |
| `X2Image.LoadEmbedToken` | diffuzers/x2image.py:37-46 | returns the first candidate the tokenizer had not known, and the tokenizer gains exactly that name; fails, changing nothing, when neither a name nor a trained token is available |
| `X2Image.CompatibleSchedulers` | diffuzers/x2image.py:91-93 | every compatible class is found under its own `__name__`, and only compatible classes are stored |
| `X2Image.SchedulerNames` | diffuzers/x2image.py:236 | the key list of the dictionary names each key exactly once |
| `X2Image.ClassNames` | diffuzers/x2image.py:92 | the `__name__` of every compatible class, position by position |
| `X2Image.SchedulerNamesAreClassNames` | diffuzers/x2image.py:91-93 | every key of the dictionary is the `__name__` of some compatible class |
| `X2Image.ClassNamesAreSchedulerNames` | diffuzers/x2image.py:91-93 | the `__name__` of every compatible class is a key of the dictionary |
| `X2Image.SchedulerNamesFirstOccurrence` | diffuzers/x2image.py:236 | the key list is in order of first insertion: of two keys, the one whose name first occurs earlier in `compatibles` comes first |
| `X2Image.FromConfig` | diffuzers/x2image.py:132 | `from_config` gives a scheduler of the requested class built from the given configuration |
| `X2Image.SchedulerUpdate` | diffuzers/x2image.py:124-137 | ValueError exactly for an unsupported pipeline name, then KeyError for an unknown scheduler; on success only the named pipeline's scheduler is replaced, by one of the requested class, built from the configuration the pipeline's old scheduler reports |
| `X2Image.X2Image.constructor` | diffuzers/x2image.py:76-93 | the object holds two distinct pipelines and the compatible scheduler dictionary, with its key order, and the function giving the configuration a scheduler reports |
| `X2Image.X2Image.SetScheduler` | diffuzers/x2image.py:124-137 | the two pipelines' schedulers become the result of `SchedulerUpdate`; an error changes nothing |
| `X2Image.X2Image.Pregen` | diffuzers/x2image.py:139-147 | sets the scheduler or passes its error on; returns the generator for the device and an image count of 1 on "mps", the requested count otherwise |
| `X2Image.PregenGenerator` | diffuzers/x2image.py:141-145 | the generator carries the seed, and it is the global torch generator exactly on "mps" |
| `X2Image.ImageCount` | diffuzers/x2image.py:141-146 | the image count is 1 on "mps" and the requested count on any other device |
| `X2Image.Text2ImgMetadata` | diffuzers/x2image.py:182-191 | the text-to-image metadata has the keys prompt, negative_prompt, scheduler, image_size, num_images, guidance_scale, steps, seed in that order |
| `X2Image.Img2ImgMetadata` | diffuzers/x2image.py:219-227 | the image-to-image metadata has the same keys without image_size |
| `X2Image.Text2ImgMetadataRecords` | diffuzers/x2image.py:182-191 | the text-to-image metadata records the count, scheduler, seed and image size it was given |
| `X2Image.Img2ImgMetadataRecords` | diffuzers/x2image.py:219-227 | the image-to-image metadata records the count, scheduler and seed it was given and has no image size |
| `X2Image.Lookup` | diffuzers/x2image.py:182-191 | `metadata[key]` on the dictionary's items; what it returns is stated by `LookupFirst`, `LookupFound` and `LookupAbsent` |
| `X2Image.LookupFirst` | diffuzers/x2image.py:182-191 | looking a key up returns the value of its first item |
| `X2Image.LookupFound` | diffuzers/x2image.py:182-191 | a value found under a key belongs to an item with that key |
| `X2Image.LookupAbsent` | diffuzers/x2image.py:182-191 | a key no item carries is not found |
| `X2Image.X2Image.Postgen` | diffuzers/x2image.py:149-161 | the PNG info carries the serialised metadata under the pipeline's name, and the images are saved as `save_images` does; an empty output path passes on `save_images`' FileNotFoundError |
| `X2Image.X2Image.Text2ImgGenerate` | diffuzers/x2image.py:163-198 | on a scheduler error nothing changes; otherwise the pipeline is called with the new scheduler and the clamped count, and that same count is recorded in the metadata and saved with the images; an empty output path fails after the scheduler change, with nothing written |
| `X2Image.X2Image.Img2ImgGenerate` | diffuzers/x2image.py:200-233 | the same for image-to-image, with the input image and the strength passed through |
| `X2Image.Pop` | diffuzers/x2image.py:239 | `list.pop(k)` keeps the elements before k and shifts the later ones down by one |
| `X2Image.IndexOf` | diffuzers/x2image.py:239 | `list.index(x)` is the first position holding x |
| `X2Image.MoveToFrontPermutes` | diffuzers/x2image.py:237-240 | moving one name to the front gives a permutation of the list |
| `X2Image.MoveToFrontKeepsOrder` | diffuzers/x2image.py:237-240 | moving the preferred name to the front leaves the other names in their relative order |
| `X2Image.X2Image.AvailableSchedulers` | diffuzers/x2image.py:236-240 | the offered list is a permutation of the compatible names and keeps the order of the other names; the preferred name comes first and appears only once when present; the list is unchanged when it is absent |
| `Utils.Prune` | diffuzers/utils.py:70-73 | visiting the keys only deletes keys: every surviving key keeps its value, and a key that is unlisted or preserved survives |
| `Utils.PruneRemoves` | diffuzers/utils.py:70-73 | visiting the keys in order removes exactly the listed keys that are not preserved |
| `Utils.ClearMemoryKeeps` | diffuzers/utils.py:70-73 | a key survives exactly when it is not one of the three listed keys or is preserved, and survivors keep their values |
| `Utils.ClearMemoryIdempotent` | diffuzers/utils.py:70-73 | clearing twice with the same preserve set is the same as clearing once |
| `Utils.ClearMemory` | diffuzers/utils.py:67-73 | the session dictionary becomes the pruned one: no unpreserved listed key remains, and no key outside the list is touched |
| `Utils.AddText` | diffuzers/utils.py:85-86 | adding a text chunk appends (key, text) after the existing chunks |
| `Utils.PngName` | diffuzers/utils.py:90 | a numbered image name starts with its directory prefix |
| `Utils.PngNameInjective` | diffuzers/utils.py:90 | two numbered file names in the same directory are equal only for equal numbers |
| `Utils.PngNameEndsWithPng` | diffuzers/utils.py:108 | every numbered image name ends in ".png" |
| `Utils.NumberedPngs` | diffuzers/utils.py:88-92 | the files the image loop leaves; what they are is stated by `NumberedPngsHold`, `NumberedPngsOnly` and `NumberedPngsArePng` |
| `Utils.NumberedPngsHold` | diffuzers/utils.py:88-92 | image j is stored under number first + j with its text chunks, later writes never overwriting earlier ones |
| `Utils.NumberedPngsOnly` | diffuzers/utils.py:88-92 | the image loop writes no file other than the numbered images |
| `Utils.NumberedPngsArePng` | diffuzers/utils.py:107-108 | every file the image loops write has a ".png" name |
| `Utils.ImageDir` | diffuzers/utils.py:83 | the image directory lies below `{output_path}/` and below `{output_path}/{module}/` |
| `Utils.MetadataPath` | diffuzers/utils.py:95 | `metadata.txt` lies in the image directory and does not end in ".png", so it is never mistaken for an image file |
| `Utils.SavedPngInfo` | diffuzers/utils.py:85-86 | the PNG info of saved images holds exactly one text chunk, the metadata under the key "text2img" |
| `Utils.SavedFiles` | diffuzers/utils.py:85-96 | the files `save_images` writes into the image directory; what they are is stated by `SavedFilesImages`, `SavedFilesOnly` and `SavedFilesBelow` |
| `Utils.PngNameIsNotMetadataPath` | diffuzers/utils.py:90-95 | no numbered image is written over `metadata.txt` |
| `Utils.SavedFilesBelow` | diffuzers/utils.py:88-96 | every file `save_images` writes lies below the image directory |
| `Utils.SavedFilesImages` | diffuzers/utils.py:85-92 | image i is at `{dir}/{i}.png` with the metadata under the text key "text2img", whatever the module |
| `Utils.SavedFilesOnly` | diffuzers/utils.py:88-96 | the metadata text is at `{dir}/metadata.txt`, and no file other than it and the images is written |
| `Utils.WritePngs` | diffuzers/utils.py:88-92 | the image loop overlays the numbered images on the files and creates no directory |
| `Utils.MadeDirs` | diffuzers/utils.py:81-83 | `os.makedirs(path)` leaves `path` and only directories that are prefixes of it |
| `Utils.MadeDirsExtend` | diffuzers/utils.py:81-83 | making a subdirectory of a non-empty path also makes that path and all of its ancestors |
| `Utils.FilesAfterSave` | diffuzers/utils.py:76-96 | no file is lost; without an output path or with an empty one the files are unchanged; otherwise only files below the image directory are added or changed |
| `Utils.DirsAfterSave` | diffuzers/utils.py:76-83 | no directory is lost; without an output path or with an empty one nothing changes; otherwise the output path, the module directory and the image directory exist, and every new directory is a prefix of the image directory |
| `Utils.DirsAfterSaveAncestors` | diffuzers/utils.py:81-83 | the three `os.makedirs` calls make exactly the image directory and all its ancestors, missing ones included |
| `Utils.SaveImages` | diffuzers/utils.py:76-97 | without an output path nothing changes; an empty output path makes the first `os.makedirs` raise FileNotFoundError before anything changes; otherwise the directories of `DirsAfterSave` exist and the saved files overlay the old ones |
| `Strings.EndsWith` | diffuzers/utils.py:117 | `filename.endswith(".png")`; what it means is stated by `EndsWithSplit` and `EndsWithAppend` |
| `Strings.EndsWithSplit` | diffuzers/utils.py:117 | a name that ends with the suffix is a head followed by the suffix |
| `Strings.EndsWithAppend` | diffuzers/utils.py:117 | any head followed by the suffix ends with the suffix |
| `Utils.WriteSavedFiles` | diffuzers/utils.py:88-96 | the writes into the image directory add exactly `SavedFiles` to the files and create no directory |
| `Utils.ZipPngFiles` | diffuzers/utils.py:114-118 | in any listing order, the archive holds exactly the directory's `.png` files with their contents |
| `Utils.DisplayAndDownload` | diffuzers/utils.py:100-122 | the gallery has one data URI per image, in order; the archive holds exactly `1.png` to `n.png`, with image k - 1 under `k.png` |

## Left out

- Loading the embeddings with torch, resizing the text encoder's embeddings and assigning the embedding row (diffuzers/x2image.py:29-35, 48-53): tensor operations of external libraries. The first key of the loaded file is the `trainedToken` input.
- The tokenizer's own handling of special, empty or normalised tokens: `add_tokens` is modelled as plain set membership.
- Pipeline construction, device placement, the safety-checker override and the "mps" warm-up inference in `__post_init__` (diffuzers/x2image.py:69-90, 105-122): external library calls and network access. The constructor takes the two pipelines it builds. The branch where no image-to-image pipeline exists (diffuzers/x2image.py:82-84) is not represented: line 88 calls `.to` on None, so no object is ever built in that case.
- The embeddings download and `load_embed` call in `__post_init__` (diffuzers/x2image.py:95-103): network I/O. That call also reads `self.pipeline`, an attribute the class never sets.
- `X2Image.__str__` (diffuzers/x2image.py:66-67): display text only.
- Seeding of torch generators, CUDA cache clearing and garbage collection (diffuzers/x2image.py:141-151, diffuzers/utils.py:68-69): the generator is a value holding the seed and the device.
- X2Image.ImageCount: `int(num_images)` is the identity here, because the slider yields integers. Truncation of a float count is not modelled.
- Streamlit widgets and rendering, gallery titles and the download-link markup (diffuzers/x2image.py:241-315, diffuzers/utils.py:46-49, 124-139): user-interface I/O. Only the scheduler ordering of `app` is kept.
- `use_auth_token`, `download_file`, `cache_folder` and `create_base_page` (diffuzers/utils.py:39-64): file system, home-directory and network I/O.
- JSON serialisation, PNG text chunks as bytes, base64, zip encoding and `datetime` formatting: library calls. The serialiser and the timestamp are parameters, and encoded content is kept as structured values.
- Guidance scale and strength are opaque reals, passed through unchanged.
- Logging calls.
- Paths are plain strings and are not normalised. The operating system treats `runs/`, `runs` and `runs//` as one directory, while the model records each spelling as its own entry of the directory set. The only `os.makedirs` error modelled is the FileNotFoundError of an empty output path.
- Scheduler classes are known only by their `__name__`. When two compatible classes share a name, the model cannot say which one the dictionary keeps, because both look the same to it.
- File system errors (a path component that exists as a file, permissions) and the removal of the temporary directory: the temporary directory of `display_and_download_images` is a local map that is dropped at the end.
