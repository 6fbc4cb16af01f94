# PortFolio2025 logic core in Dafny

PortFolio2025 is a personal portfolio site. It has a public side (project gallery, skills views, certification vault) and an admin side (login, dashboard, CRUD screens over a hosted database). Most of it is markup and animation. Underneath, a set of small, self-contained pieces of logic decide what is shown and what is written. This project models those pieces and proves what they promise:

- the theme provider's two-valued mode, its persistence in local storage and the root `dark` class (`Theme`);
- string helpers:
  - slug generation (`ProjectForm`);
  - breadcrumbs and the active-link rule (`DashboardLayout`);
  - kebab-to-PascalCase icon names (`SkillsGraph`);
  - the colour read from an icon URL (`UseSkills`);
  - the tech-icon key (`ProjectCard`);
  - the issuer-logo table (`CertCard`);
- list operations:
  - de-duplicated sorted technology tabs, the gallery filters and rows of three (`ProjectsGallery`);
  - grouping by category, sorting by proficiency and chaining graph links (`UseSkills`, `SkillsGraph`, `SkillsBento`, `SkillSort`);
  - certification counters (`UseCertifications`);
  - the `Map`-based de-duplication of the mock data (`MockData`);
  - the admin search filters, the featured toggle and counter, and the tag chips (`AdminProjects`, `AdminSkills`, `AdminCertifications`);
- the database-to-UI record transforms (`UseProjects`, `UseSkills`, `UseCertifications`);
- validation and the small outcome machines:
  - project submit validation and normalisation, and the image check (`ProjectForm`);
  - certification save normalisation and the file check (`AdminCertifications`);
  - sign-in error mapping and loading state (`LoginPage`);
  - the session guard (`ProtectedRoute`);
- the modular `wrap` of the skills marquee and its render precedence (`SkillsVelocity`).

**How the model is written**

- Pure code becomes functions and lemmas.
- Code that changes state step by step becomes imperative Dafny:
  - the providers and screens whose handlers update component state become classes with methods;
  - `forEach`/`for` loops become methods with loop invariants, each proved against a specification function;
  - the in-place `sort` of the shared mock skill array is an insertion sort on an `array`.
- Each answer from the backend (query result, storage upload, sign-in reply, session check) is a parameter of the handler that receives it. The writes a handler would send are returned as values, so their order and content can be stated.

**Shared helper modules**

- `Common`: `Option` and `Result`.
- `Text`: ASCII `toLowerCase`, `trim`, `includes`, `split`/`join` and the capitalise-words conversion.
- `Seqs`: `filter`, `slice`, counting and chip rows.
- `Ordering`: the default string sort order.
- `JsObject`: property lookup on an object literal, including what it inherits from `Object.prototype`.
- `Database` and `PortfolioTypes`: the record types.

## Model

| member | source | states |
|---|---|---|
| Theme.InitialMode | src/context/ThemeContext.tsx:41-51 | the initial mode is the stored one exactly when the stored string is `recruiter` or `geek`; a missing value, any other string, or a read that throws gives `defaultMode` |
| Theme.Toggled | src/context/ThemeContext.tsx:77-79 | `toggleTheme` always switches to the other mode |
| Theme.ToggleTwice | src/context/ThemeContext.tsx:78 | toggling twice restores the original mode |
| Theme.ToggleParity | src/context/ThemeContext.tsx:77-79 | after n toggles the mode is the original for even n and the other mode for odd n |
| Theme.ReloadRestoresMode | src/context/ThemeContext.tsx:41-71 | after a successful write, a fresh provider reading the same store starts in the written mode, whatever its default |
| Theme.ContextValueOf | src/context/ThemeContext.tsx:89-98 | exactly one of `isRecruiterMode`/`isGeekMode` holds, and `isGeekMode` holds iff the mode is geek |
| Theme.UseTheme | src/hooks/useTheme.ts:52-63 | with no provider the hook fails with the documented message; otherwise it returns the provider's value |
| Theme.ThemeProvider.constructor | src/context/ThemeContext.tsx:36-51 | the mode is `InitialMode` of the storage read; the store and the root class are untouched |
| Theme.ThemeProvider.SyncEffect | src/context/ThemeContext.tsx:57-72 | afterwards `dark` is present iff the mode is geek; the store holds the mode under `portfolio-theme-mode` unless the write throws, in which case the store is unchanged; the mode is never rolled back |
| Theme.ThemeProvider.ToggleTheme | src/context/ThemeContext.tsx:77-79 | the mode becomes the other mode, and the effect leaves class and store in sync with it |
| Theme.ThemeProvider.SetTheme | src/context/ThemeContext.tsx:84-86 | the mode equals the requested one whatever it was before; class and store stay in sync |
| Theme.ThemeProvider.Value | src/context/ThemeContext.tsx:88-98 | the published value is `ContextValueOf` the current mode |
| ProjectForm.DashRuns | src/features/admin/projects/ProjectForm.tsx:120 | replacing whitespace runs never lengthens the string |
| ProjectForm.GenerateSlug | src/features/admin/projects/ProjectForm.tsx:115-121 | every character of a slug is in `[a-z0-9_-]`, and none is whitespace |
| ProjectForm.SlugCharsAfterDashRuns | src/features/admin/projects/ProjectForm.tsx:119-120 | after the character filter, turning whitespace runs into `-` leaves only slug characters |
| ProjectForm.DashRunsNoSpace | src/features/admin/projects/ProjectForm.tsx:120 | a string without whitespace is unchanged by the run replacement |
| ProjectForm.GenerateSlugIdempotent | src/features/admin/projects/ProjectForm.tsx:115-121 | a generated slug is its own slug |
| ProjectForm.ApplyInputChange | src/features/admin/projects/ProjectForm.tsx:124-142 | each text input sets its own field and the `is_featured` checkbox sets the flag, every other field keeping its value; a `title` change in create mode also sets the slug to `generateSlug` of the new title; the selected skills and cover are untouched |
| ProjectForm.EditModeKeepsSlug | src/features/admin/projects/ProjectForm.tsx:136-141 | in edit mode only the slug input changes the slug |
| ProjectForm.ToggleSkill | src/features/admin/projects/ProjectForm.tsx:145-153 | a selected id is removed (every copy), the others keep their order and their number of copies; an unselected id is appended at the end |
| ProjectForm.ToggleSkillTwice | src/features/admin/projects/ProjectForm.tsx:147-152 | selecting an unselected skill and toggling it again restores the selection |
| ProjectForm.CheckImage | src/features/admin/projects/ProjectForm.tsx:156-170 | an image is accepted iff a file was chosen, its MIME type starts with `image/`, and its size is at most 5·1024·1024 bytes; the type is checked first |
| ProjectForm.UploadErrorMessage | src/features/admin/projects/ProjectForm.tsx:206-211 | a missing-bucket error gets its own message; any other error is prefixed with `Error al subir imagen: ` |
| ProjectForm.ValidateProjectForm | src/features/admin/projects/ProjectForm.tsx:229-236 | submit passes iff title, slug and short description are non-empty and a skill is selected; the required-fields error takes precedence |
| Database.NullIfEmpty | src/features/admin/projects/ProjectForm.tsx:246 | `value \|\| null`: null iff empty, the value otherwise, and `\|\| ''` turns it back into the string |
| ProjectForm.TrimOrNull | src/features/admin/projects/ProjectForm.tsx:245-248 | `value.trim() \|\| null`: null iff the trimmed value is empty, otherwise the trimmed value |
| ProjectForm.ProjectRecordOf | src/features/admin/projects/ProjectForm.tsx:241-250 | title, slug and short description are the trimmed inputs; the full description and links are trimmed, with blank becoming null; the cover URL is null when empty and is not trimmed; the featured flag is copied |
| ProjectForm.LoadedForm | src/features/admin/projects/ProjectForm.tsx:92-100 | the edit loader copies the fetched row into the form, a null description, cover or link becoming the empty string, with the ids of its skill relations |
| ProjectForm.TrimOrNullStable | src/features/admin/projects/ProjectForm.tsx:245-248 | normalising an optional field that was already normalised and reloaded changes nothing |
| ProjectForm.SaveLoadSaveStable | src/features/admin/projects/ProjectForm.tsx:92-100 | saving a form, loading the saved row for editing and saving again writes the same row |
| ProjectForm.SaveErrorMessage | src/features/admin/projects/ProjectForm.tsx:307 | the shown error is never empty: the backend's message, or the fallback |
| ProjectForm.Submit | src/features/admin/projects/ProjectForm.tsx:218-311 | a failed validation sends nothing; otherwise the project write is first; after a successful save, an edit deletes the old relations before inserting the new ones; the form navigates iff every step succeeded, and shows an error otherwise |
| ProjectForm.ProjectFormState.constructor | src/features/admin/projects/ProjectForm.tsx:41-104 | create mode starts from the empty form with no preview; in edit mode a fetched row fills the form (`LoadedForm`) and previews its cover, while a failed fetch keeps the empty form and shows `Error al cargar el proyecto`; not loading, not uploading |
| ProjectForm.ProjectFormState.HandleInputChange | src/features/admin/projects/ProjectForm.tsx:124-142 | the form becomes `ApplyInputChange` of the old form, in the component's mode; loading, error, preview, upload flag and navigation are unchanged |
| ProjectForm.ProjectFormState.HandleSkillToggle | src/features/admin/projects/ProjectForm.tsx:145-153 | only the selected skills change, by `ToggleSkill`; every other field is unchanged |
| ProjectForm.ProjectFormState.HandleImageUpload | src/features/admin/projects/ProjectForm.tsx:156-215 | a non-image raises `Por favor selecciona un archivo de imagen`, a file over 5 MB `La imagen no debe superar 5MB`, and either changes nothing; a successful upload sets the cover URL and preview and clears the error; a failed one keeps form and preview and sets the mapped error message; `uploadingImage` ends false after an upload |
| ProjectForm.ProjectFormState.HandleSubmit | src/features/admin/projects/ProjectForm.tsx:218-311 | the writes, error and navigation are those of `Submit`; loading ends false; the form, preview and upload flag are unchanged |
| ProjectsGallery.AvailableTechnologies | src/features/projects/ProjectsGallery.tsx:42-48 | the tabs hold exactly the tags some project uses, each once, strictly ascending |
| ProjectsGallery.TechnologyTabs | src/features/projects/ProjectsGallery.tsx:239 | at most five tabs are shown: the first of the sorted list |
| ProjectsGallery.FilteredProjects | src/features/projects/ProjectsGallery.tsx:51-69 | an order-preserving subsequence; a project is kept iff it has the exact selected tag (or the filter is `all`) and, when the trimmed query is non-empty, the lower-cased untrimmed query occurs in its lower-cased title or short description; `all` with a blank query keeps everything |
| ProjectsGallery.ProjectRows | src/features/projects/ProjectsGallery.tsx:72-78 | the rows concatenate back to the filtered list; every row has 1 to 3 items and all but the last have 3 |
| ProjectsGallery.AbsoluteIndex | src/features/projects/ProjectsGallery.tsx:308-309 | `rowIndex * 3 + projectIndex` is the card's position in the filtered list |
| DashboardLayout.Segments | src/features/admin/DashboardLayout.tsx:72 | the segments are the non-empty pieces of the path split on `/`, in order and with their multiplicity; none is empty or holds a `/` |
| DashboardLayout.SegmentsOfPath | src/features/admin/DashboardLayout.tsx:72 | an absolute path built by joining non-empty segments with `/` gives those segments back |
| DashboardLayout.GenerateBreadcrumbs | src/features/admin/DashboardLayout.tsx:71-88 | there are `max(1, #segments)` crumbs; the first is `Admin` → `/admin/dashboard`; crumb k is the capitalised segment k with path `/admin/` + segments 1..k joined by `/` |
| DashboardLayout.CrumbPathExtends | src/features/admin/DashboardLayout.tsx:82 | each crumb's path extends the previous crumb's path by `/` and one segment |
| DashboardLayout.FirstCrumbPath | src/features/admin/DashboardLayout.tsx:82 | the first segment crumb's path is `/admin/` followed by its own segment |
| DashboardLayout.CrumbNameShape | src/features/admin/DashboardLayout.tsx:77-80 | a crumb title has no `-` and is as long as its segment: dashes become spaces |
| DashboardLayout.IsActive | src/features/admin/DashboardLayout.tsx:139-141 | an exact item is active iff the path equals its link; any other item is active iff the path starts with its link |
| DashboardLayout.ActiveBelow | src/features/admin/DashboardLayout.tsx:139-141 | a non-exact item stays active on every page below it |
| DashboardLayout.ActivePrefix | src/features/admin/DashboardLayout.tsx:229-231 | an active item's link is a prefix of the path, for both sidebars |
| DashboardLayout.AtMostOneActive | src/features/admin/DashboardLayout.tsx:46-68 | at any path at most one of the four sidebar items is active |
| UseSkills.ExtractColorFromUrl | src/hooks/useSkills.ts:43-46 | a URL ending in `/` and six hex digits gives `#` and those digits with their case kept; any other URL gives `#3B82F6`; the result is always `#` and six hex digits |
| UseSkills.ExtractColorRoundTrip | src/hooks/useSkills.ts:43-46 | an icon URL built from a path and a colour gives that colour back |
| UseSkills.FirstChar | src/hooks/useSkills.ts:58 | `charAt(0)` is the first character, or empty for an empty name |
| UseSkills.TransformSkill | src/hooks/useSkills.ts:51-63 | name, category and proficiency are copied; a missing or empty icon URL gives the fallback colour and a placeholder logo ending in the name's first character; otherwise the logo is the URL and the colour comes from it |
| UseSkills.OfCategory | src/hooks/useSkills.ts:127-133 | a category's group holds exactly the skills of that category, and no more than all skills |
| UseSkills.CategoriesPartition | src/hooks/useSkills.ts:127-133 | the group sizes add up to the number of skills |
| UseSkills.GroupStep | src/hooks/useSkills.ts:128-131 | creating a missing key and pushing one skill keeps every group equal to its category's skills in order |
| UseSkills.GroupByCategory | src/hooks/useSkills.ts:127-133 | there is a key exactly for each category that occurs, holding that category's skills in their original order |
| UseSkills.TopSkills | src/hooks/useSkills.ts:147-150 | `slice(0, limit)`: the first `min(limit, n)` skills, and for a negative limit all but the last `-limit` |
| UseProjects.SkillNames | src/hooks/useProjects.ts:57 | the tags are the joined skills' names, in order |
| UseProjects.TransformProject | src/hooks/useProjects.ts:51-69 | fields copied and aliased (`description`, `demoUrl`, `githubUrl`); tags are the skill names or empty; the cover falls back to `/placeholder-project.jpg`; a blank full description becomes absent; type is `web`; status is `published` iff featured, else `draft` |
| UseProjects.StatusRecoversFeatured | src/hooks/useProjects.ts:67 | the status is `published` or `draft`, and is `published` iff the project is featured |
| UseProjects.FlattenProjectSkills | src/hooks/useProjects.ts:109-111 | a missing join gives no skills; otherwise exactly the non-null skills are kept |
| UseProjects.PresentSkills | src/hooks/useProjects.ts:110-111 | exactly the present skills are kept; with no nulls none is dropped |
| UseProjects.PresentSkillsAppend | src/hooks/useProjects.ts:110-111 | dropping nulls distributes over concatenation, so order is kept |
| UseCertifications.TransformCertification | src/hooks/useCertifications.ts:54-69 | the eight columns are copied; the related project's title is present iff there is a related project, and is its title |
| UseCertifications.CategoryCount | src/hooks/useCertifications.ts:140-145 | a category's count never exceeds the number of certifications |
| UseCertifications.LinkedCount | src/hooks/useCertifications.ts:142-144 | `withProjects` never exceeds the number of certifications |
| UseCertifications.Statistics | src/hooks/useCertifications.ts:131-152 | `total` is the list length; each category counter counts its category; `withProjects` counts the truthy `related_project_id`s |
| UseCertifications.CategoryCountsSum | src/hooks/useCertifications.ts:140-145 | the three category counters add up to the total |
| UseCertifications.CountsAppend | src/hooks/useCertifications.ts:140-145 | the counters of a concatenation are the sums of the parts' counters |
| SkillsGraph.PascalCaseShape | src/features/skills/SkillsGraph.tsx:50-53 | the PascalCase name has no `-`, and its length is the icon name's minus its dashes |
| SkillsGraph.GetIcon | src/features/skills/SkillsGraph.tsx:49-56 | the export with the PascalCase name when the library has one, otherwise `Code2` |
| SkillsGraph.SortedCopy | src/features/skills/SkillsGraph.tsx:74 | sorting a category list in place gives the stable descending order by proficiency |
| SkillsGraph.SkillsByCategory | src/features/skills/SkillsGraph.tsx:61-78 | each category list is that category's skills in the stable descending proficiency order |
| SkillsGraph.SortedGroupMembers | src/features/skills/SkillsGraph.tsx:62-75 | a sorted category list holds exactly that category's skills, in descending proficiency |
| SkillsGraph.Nodes | src/features/skills/SkillsGraph.tsx:91-97 | one node per skill, in skill order, with the skill's id, name, category and category colour |
| SkillsGraph.ChainLinks | src/features/skills/SkillsGraph.tsx:107-112 | a list of k skills gives k−1 links, joining each entry to the next |
| SkillsGraph.GraphLinks | src/features/skills/SkillsGraph.tsx:100-115 | the links are the language, framework and tool chains, in that order |
| SkillsGraph.LinkCount | src/features/skills/SkillsGraph.tsx:100-115 | the number of links is the number of skills minus the number of categories in use |
| SkillsGraph.CategoriesUsed | src/features/skills/SkillsGraph.tsx:304 | the distinct categories are exactly those with at least one skill |
| SkillsGraph.ExpertCount | src/features/skills/SkillsGraph.tsx:298 | the expert counter is at most the number of skills, zero iff no skill is at 90 or above, and the total iff all are |
| SkillsGraph.ExpertCountSnoc | src/features/skills/SkillsGraph.tsx:298 | one more skill raises the counter by one exactly when its proficiency is at least 90 |
| SkillsGraph.CategoriesCounter | src/features/skills/SkillsGraph.tsx:304 | the categories counter equals the number of non-empty category lists, so it is at most 3 |
| SkillSort.InsertDesc | src/features/skills/SkillsBento.tsx:62 | inserting a skill into the order adds exactly one element |
| SkillSort.InsertDescPermutes | src/features/skills/SkillsBento.tsx:62 | insertion adds exactly the inserted skill to the multiset |
| SkillSort.SortDesc | src/features/skills/SkillsBento.tsx:62 | the stable descending order has the input's length |
| SkillSort.SortDescPermutes | src/features/skills/SkillsBento.tsx:62 | the order is a permutation of the input |
| SkillSort.InsertDescSorted | src/features/skills/SkillsBento.tsx:62 | inserting into a descending list keeps it descending |
| SkillSort.SortDescSorted | src/features/skills/SkillsBento.tsx:62 | the order is descending by proficiency |
| SkillSort.SortDescOfSorted | src/features/skills/SkillsBento.tsx:62 | an already descending list is left as it is (the sort is stable) |
| SkillSort.SortDescIdempotent | src/features/skills/SkillsBento.tsx:62 | sorting twice is sorting once |
| SkillSort.InsertDescSplit | src/features/skills/SkillsBento.tsx:62 | inserting past a tail of lower proficiencies leaves that tail after the new skill |
| SkillSort.InsertAt | src/features/skills/SkillsBento.tsx:62 | one insertion step in place: the prefix becomes the insertion of the element into it, and the rest of the array is unchanged |
| SkillSort.SortByProficiency | src/features/skills/SkillsBento.tsx:61-62 | the array ends holding the stable descending order of its old contents |
| SkillsBento.Render | src/features/skills/SkillsBento.tsx:53-63 | the category lists are filtered from the array before the sort; the shared array is then sorted in place; the main stack is its first three |
| SkillsBento.MainStackIsTop | src/features/skills/SkillsBento.tsx:61-63 | the main stack has `min(3, n)` skills in descending proficiency; no skill after it is more proficient than its third; the sort is a permutation |
| SkillsBento.MainStackDominates | src/features/skills/SkillsBento.tsx:61-63 | every skill left out of the main stack is at most as proficient as each skill in it |
| SkillsBento.SecondRenderStable | src/features/skills/SkillsBento.tsx:61-63 | a later render finds the array sorted and leaves it, and the main stack, unchanged |
| PortfolioTypes.OfCategory | src/features/skills/SkillsBento.tsx:56-58 | a category filter keeps exactly the skills of that category |
| PortfolioTypes.CategoryPartition | src/features/skills/SkillsGraph.tsx:62-70 | every skill lands in exactly one of the three category lists |
| PortfolioTypes.OfCategoryAppend | src/features/skills/SkillsBento.tsx:56-58 | category filtering distributes over concatenation, so it keeps order |
| MockData.FindById | src/mocks/data.ts:283-292 | the index of the first element with the id, or none iff no element has it |
| MockData.GetSkillById | src/mocks/data.ts:283-285 | none iff no skill has the id; otherwise a skill with that id that comes before every other one |
| MockData.GetProjectById | src/mocks/data.ts:290-292 | none iff no project has the id; otherwise the first project with that id |
| MockData.GetProjectsByTechnology | src/mocks/data.ts:297-301 | an order-preserving subsequence holding exactly the projects with a technology of that exact name |
| MockData.GetProjectsBySkillCategory | src/mocks/data.ts:306-310 | an order-preserving subsequence holding exactly the projects with a technology of that category |
| MockData.Ids | src/mocks/data.ts:320 | the ids of a technology list, position by position |
| MockData.FirstOccurrenceIds | src/mocks/data.ts:316-324 | the `Map`'s key order: each id once, exactly the ids that occur |
| MockData.LastWithId | src/mocks/data.ts:320 | the value a repeated `set` leaves is a technology with that id, present iff the id occurs |
| MockData.SetStep | src/mocks/data.ts:320 | one `set` appends a new key at the end and replaces the value under an existing one |
| MockData.SetAll | src/mocks/data.ts:319-321 | a project's inner loop leaves the map in the state after setting all the technologies seen so far |
| MockData.GetAllUsedTechnologies | src/mocks/data.ts:315-325 | the result's ids are the distinct ids in order of first occurrence, and each entry is the last technology set under its id |
| MockData.ValuesInOrder | src/mocks/data.ts:324 | `Array.from(map.values())` gives the value under each key, in key order |
| MockData.AllUsedTechnologiesDistinct | src/mocks/data.ts:316-324 | no two entries of the result share an id |
| MockData.AllUsedTechnologiesCover | src/mocks/data.ts:318-324 | every technology any project uses has its id in the result |
| SkillsVelocity.JsRem | src/features/skills/SkillsVelocity.tsx:11 | JavaScript `%`: the remainder of truncating division, with the sign of the dividend |
| SkillsVelocity.Wrap | src/features/skills/SkillsVelocity.tsx:9-12 | `wrap` has no numeric result (NaN) exactly when the window is empty |
| SkillsVelocity.WrapShiftsByWidths | src/features/skills/SkillsVelocity.tsx:9-12 | the result differs from `v` by a whole number of window widths |
| SkillsVelocity.WrapInWindow | src/features/skills/SkillsVelocity.tsx:9-12 | for `min < max` the result lies in `[min, max)` |
| SkillsVelocity.WrapInReversedWindow | src/features/skills/SkillsVelocity.tsx:9-12 | for `max < min` the result lies in `(max, min]` |
| SkillsVelocity.WrapIdentityInWindow | src/features/skills/SkillsVelocity.tsx:9-12 | a value already in `[min, max)` is returned unchanged |
| SkillsVelocity.WrapIdempotent | src/features/skills/SkillsVelocity.tsx:9-12 | wrapping twice is wrapping once |
| SkillsVelocity.Quadrupled | src/features/skills/SkillsVelocity.tsx:160 | the spread copy has length 4n and each of its four quarters is the skill list |
| SkillsVelocity.QuadrupledIndex | src/features/skills/SkillsVelocity.tsx:160 | the duplicated list has length 4n and position i shows skill i mod n |
| SkillsVelocity.RenderVelocity | src/features/skills/SkillsVelocity.tsx:185-221 | loading first, then a non-empty error, then the empty message, then the marquee of the 4× list |
| AdminProjects.FilterProjects | src/features/admin/projects/AdminProjects.tsx:29-32 | an order-preserving subsequence; a project is kept iff the lower-cased term occurs in its lower-cased title or in some lower-cased tag |
| AdminProjects.EmptySearchKeepsAll | src/features/admin/projects/AdminProjects.tsx:29-32 | an empty search term keeps every project |
| AdminProjects.ToggleFeaturedWrite | src/features/admin/projects/AdminProjects.tsx:59-65 | the toggle writes the negation of the current value to that project |
| AdminProjects.ToggleFeaturedTwice | src/features/admin/projects/AdminProjects.tsx:64 | two toggles restore the original flag |
| AdminProjects.TagColumn | src/features/admin/projects/AdminProjects.tsx:306-323 | at most three chips, the first tags, plus `+(n−3)` exactly when n > 3 |
| AdminProjects.FeaturedCountBounds | src/features/admin/projects/AdminProjects.tsx:420 | the featured count is at most the total; it is 0 iff no project is featured, and the total iff all are |
| AdminSkills.FilterSkills | src/features/admin/skills/AdminSkills.tsx:45-47 | an order-preserving subsequence holding the skills whose lower-cased name includes the lower-cased term |
| AdminSkills.EmptySearchKeepsAllSkills | src/features/admin/skills/AdminSkills.tsx:45-47 | an empty term keeps every skill |
| AdminSkills.EditForm | src/features/admin/skills/AdminSkills.tsx:64-69 | the edit form is filled from the skill, with its logo as the icon URL |
| AdminSkills.ApplySkillInput | src/features/admin/skills/AdminSkills.tsx:323-374 | an input changes its own field and keeps the others |
| AdminSkills.InputsKeepProficiencyInRange | src/features/admin/skills/AdminSkills.tsx:368-374 | from an in-range form, any sequence of slider edits keeps proficiency within 0..100 |
| AdminSkills.SkillSubmitWrite | src/features/admin/skills/AdminSkills.tsx:79-102 | an update of the row named by `editingId` iff `editingId` is a non-empty string, otherwise an insert; the whole form is sent either way |
| AdminSkills.EditThenSaveUpdatesRow | src/features/admin/skills/AdminSkills.tsx:62-102 | editing and saving unchanged rewrites the row under the skill's name, unless the name is empty, in which case the skill is inserted again |
| AdminSkills.AdminSkillsState.constructor | src/features/admin/skills/AdminSkills.tsx:32-42 | closed modal, not editing, blank form (`''`, `''`, `Frontend`, 50), not submitting |
| AdminSkills.AdminSkillsState.HandleCreate | src/features/admin/skills/AdminSkills.tsx:50-59 | the modal opens on the blank form with no `editingId` |
| AdminSkills.AdminSkillsState.HandleEdit | src/features/admin/skills/AdminSkills.tsx:62-71 | the modal opens on `EditForm` of the skill, with `editingId` set to the skill's name |
| AdminSkills.AdminSkillsState.HandleInput | src/features/admin/skills/AdminSkills.tsx:323-374 | the form becomes `ApplySkillInput` of the old form; nothing else changes |
| AdminSkills.AdminSkillsState.CloseModal | src/features/admin/skills/AdminSkills.tsx:387 | the modal closes; the form and `editingId` are kept |
| AdminSkills.AdminSkillsState.HandleSubmit | src/features/admin/skills/AdminSkills.tsx:74-116 | sends `SkillSubmitWrite`; on success it refetches and closes the modal; on failure it alerts and leaves the modal open; `submitting` ends false |
| AdminCertifications.FilterCertifications | src/features/admin/certifications/AdminCertifications.tsx:55-58 | an order-preserving subsequence; kept iff the lower-cased term occurs in the lower-cased title or issuer |
| AdminCertifications.EmptySearchKeepsAllCertifications | src/features/admin/certifications/AdminCertifications.tsx:55-58 | an empty term keeps every certification |
| AdminCertifications.BlankCertForm | src/features/admin/certifications/AdminCertifications.tsx:63-71 | empty title, issuer and URLs; today's date; category `Study`; no project |
| AdminCertifications.EditCertForm | src/features/admin/certifications/AdminCertifications.tsx:91-99 | the form is filled from the row, with null URLs shown as empty strings |
| AdminCertifications.DataToSave | src/features/admin/certifications/AdminCertifications.tsx:109-117 | text fields and category copied; an empty credential URL or file URL, and a missing or empty project id, are sent as null |
| AdminCertifications.SaveThenEditRoundTrip | src/features/admin/certifications/AdminCertifications.tsx:91-117 | saving a form and reopening it gives the same form, unless it held an empty project id |
| AdminCertifications.EditThenSaveRoundTrip | src/features/admin/certifications/AdminCertifications.tsx:91-117 | reopening a stored row and saving it unchanged writes the row's own values, when no optional column holds an empty string |
| AdminCertifications.CertSubmitWrite | src/features/admin/certifications/AdminCertifications.tsx:119-136 | an update of `editingId` iff it is a non-empty string, otherwise an insert; the data is `DataToSave` of the form |
| AdminCertifications.CheckCertFile | src/features/admin/certifications/AdminCertifications.tsx:178-193 | a file is accepted iff it was chosen, its type is one of the five listed, and its size is at most 10·1024·1024 bytes; the type is checked first |
| AdminCertifications.PreviewSource | src/features/admin/certifications/AdminCertifications.tsx:500-502 | the preview is the fresh upload when there is one, otherwise the form's file URL |
| AdminCertifications.ModalPreview | src/features/admin/certifications/AdminCertifications.tsx:500-523 | the preview box is drawn iff its source is non-empty, as a PDF link iff the source ends in `.pdf`, otherwise as an image; the same rule as the public card's file strip |
| AdminCertifications.ApplyCertInput | src/features/admin/certifications/AdminCertifications.tsx:409-488 | an input changes its own field; an empty project choice is stored as null; the file URL is never touched by the inputs |
| AdminCertifications.InputsNeverStoreEmptyProjectId | src/features/admin/certifications/AdminCertifications.tsx:465 | the inputs never put an empty project id into the form |
| AdminCertifications.AdminCertificationsState.constructor | src/features/admin/certifications/AdminCertifications.tsx:40-52 | closed modal, not editing, the blank form, nothing in flight, no preview |
| AdminCertifications.AdminCertificationsState.HandleCreate | src/features/admin/certifications/AdminCertifications.tsx:61-73 | the modal opens on the blank form with no `editingId`; the preview of an earlier upload is kept |
| AdminCertifications.AdminCertificationsState.HandleEdit | src/features/admin/certifications/AdminCertifications.tsx:76-101 | `editingId` is set first; a fetched row fills the form and opens the modal; a failed fetch changes nothing else |
| AdminCertifications.AdminCertificationsState.HandleInput | src/features/admin/certifications/AdminCertifications.tsx:409-488 | the form becomes `ApplyCertInput` of the old form; nothing else changes |
| AdminCertifications.AdminCertificationsState.HandleSubmit | src/features/admin/certifications/AdminCertifications.tsx:104-146 | sends `CertSubmitWrite`; on success it refetches and closes the modal; on failure it alerts; `submitting` ends false |
| AdminCertifications.AdminCertificationsState.HandleFileUpload | src/features/admin/certifications/AdminCertifications.tsx:178-231 | a rejected file raises its alert and changes nothing; a successful upload sets the form's file URL and the preview; a failed upload alerts with the message; `uploadingFile` ends false after an upload |
| JsObject.Get | src/features/projects/components/ProjectCard.tsx:114 | a lookup gives the table's own value, else a non-string for an inherited key, else undefined |
| JsObject.GetOr | src/features/projects/components/ProjectCard.tsx:114 | `table[key] \|\| fallback`: the looked-up value when truthy, otherwise the fallback |
| JsObject.GetOwnOr | src/features/certifications/components/CertCard.tsx:111 | the own-key lookup: a non-empty own value, otherwise the fallback |
| JsObject.GetOrAgreesOffPrototype | src/features/certifications/components/CertCard.tsx:111 | for keys a plain object does not inherit, the two lookups agree |
| JsObject.GetOrInheritedKey | src/features/certifications/components/CertCard.tsx:111 | an inherited key missing from the table never falls back to the default |
| ProjectCard.TechIconKey | src/features/projects/components/ProjectCard.tsx:113 | the key has no whitespace and no capitals, and is no longer than the name |
| ProjectCard.NormalisedNameIsKey | src/features/projects/components/ProjectCard.tsx:113 | a lower-case name without whitespace is its own key |
| ProjectCard.TechIconKeyIgnoresCase | src/features/projects/components/ProjectCard.tsx:113 | lower-casing the name first does not change the key |
| ProjectCard.TechIconKeyIgnoresSpace | src/features/projects/components/ProjectCard.tsx:113 | a whitespace character anywhere in the name does not change the key |
| ProjectCard.TechIconKeyIdempotent | src/features/projects/components/ProjectCard.tsx:113 | the key of a key is itself |
| ProjectCard.GetTechIconAsWritten | src/features/projects/components/ProjectCard.tsx:112-115 | as written, the lookup gives a string for every key that `Object.prototype` does not supply |
| ProjectCard.TechIconAsWrittenConstructor | src/features/projects/components/ProjectCard.tsx:112-115 | as written, a technology named `constructor` gets a function, not an icon |
| ProjectCard.GetTechIcon | src/features/projects/components/ProjectCard.tsx:99-115 | a known key gives its icon; any other name gives `🔧`; never empty |
| ProjectCard.TechIconCorrectedAgrees | src/features/projects/components/ProjectCard.tsx:112-115 | the corrected lookup agrees with the written one on every key that is not inherited |
| ProjectCard.HeroIcon | src/features/projects/components/ProjectCard.tsx:224 | the first tag's icon, or the default icon when there is no non-empty first tag |
| ProjectCard.ColorsFor | src/features/projects/components/ProjectCard.tsx:118-142 | mobile and fullstack get their own colours, and every other type the web colours |
| ProjectCard.HookProjectsUseWebColors | src/hooks/useProjects.ts:66 | every project built by the projects hook is drawn in the web colours, since the hook sets its type to `web` |
| ProjectCard.StatusLabel | src/features/projects/components/ProjectCard.tsx:256 | `✨ Live` iff the status is `published`, `🚧 In Progress` otherwise |
| ProjectCard.StatusFollowsFeatured | src/features/projects/components/ProjectCard.tsx:256-404 | a hook project shows `✨ Live` iff featured, and the progress bar iff not featured |
| ProjectCard.TechnologyRow | src/features/projects/components/ProjectCard.tsx:368-399 | at most four chips, each the tag with its icon, plus `+(n−4)` exactly when n > 4 |
| CertCard.LogosAreReal | src/features/certifications/components/CertCard.tsx:95-109 | no table entry is empty or the placeholder URL |
| CertCard.GetIssuerLogoAsWritten | src/features/certifications/components/CertCard.tsx:94-112 | as written, the lookup gives a string for every issuer that `Object.prototype` does not supply |
| CertCard.GetIssuerLogo | src/features/certifications/components/CertCard.tsx:94-112 | an exact, case-sensitive issuer key gives its URL; anything else gives the placeholder certificate URL |
| CertCard.IssuerLogoCorrectedAgrees | src/features/certifications/components/CertCard.tsx:111 | the corrected lookup agrees with the written one on every issuer that is not inherited |
| CertCard.AwsAliases | src/features/certifications/components/CertCard.tsx:96-97 | `AWS` and `Amazon AWS` map to the same logo |
| CertCard.IssuerLookupCaseSensitive | src/features/certifications/components/CertCard.tsx:95-111 | the lookup is case-sensitive: `aws` gets the placeholder |
| CertCard.CategoryLabel | src/features/certifications/components/CertCard.tsx:61-89 | Study is labelled `Certificación`, Competition `Competencia` and Event `Evento`, and no other category carries those labels |
| CertCard.CategoryLabelsDistinct | src/features/certifications/components/CertCard.tsx:61-89 | the three category labels are pairwise different |
| CertCard.LogoSlotAsWritten | src/features/certifications/components/CertCard.tsx:245-261 | as written, the category icon is drawn iff the lookup returned exactly the placeholder |
| CertCard.LogoSlotAsWrittenToString | src/features/certifications/components/CertCard.tsx:245-261 | as written, an issuer named `toString` gets an image whose source is a function |
| CertCard.LogoSlotOf | src/features/certifications/components/CertCard.tsx:245-261 | the category icon iff the issuer is not in the table; otherwise the issuer's URL |
| CertCard.FilePreviewOf | src/features/certifications/components/CertCard.tsx:174-200 | no file strip for a missing or empty URL; a PDF badge iff the URL ends with `.pdf`; otherwise the image |
| CertCard.RenderCertCard | src/features/certifications/components/CertCard.tsx:174-337 | logo slot, badge and file strip as above; the credential link iff the URL is non-empty; the project button iff both the related title and the project id are non-empty |
| LoginPage.SignInErrorMessage | src/features/auth/LoginPage.tsx:71-78 | `Invalid login credentials` gives the credentials message; otherwise `Email not confirmed` gives the confirmation message; any other message is prefixed with `Error de autenticación: ` |
| LoginPage.PrefixedMessageRecoverable | src/features/auth/LoginPage.tsx:76-77 | the provider's message can be read back from the prefixed one |
| LoginPage.SignInRequest | src/features/auth/LoginPage.tsx:48-60 | no request iff the email or the password is empty; otherwise the trimmed email and the password as typed |
| LoginPage.ReplyOutcome | src/features/auth/LoginPage.tsx:57-91 | navigation to `/admin/dashboard` iff there is no error and a session; otherwise the mapped error, the thrown `Error`'s message, `Error al iniciar sesión` for a thrown non-`Error`, or `No se pudo crear la sesión` |
| LoginPage.DiagnoseAlert | src/features/auth/LoginPage.tsx:32-38 | the diagnosis alerts instead of running iff the email or the password is empty |
| LoginPage.LoginState.constructor | src/features/auth/LoginPage.tsx:24-29 | empty fields, not loading, no error, no navigation |
| LoginPage.LoginState.SetEmail | src/features/auth/LoginPage.tsx:24-29 | only the email changes |
| LoginPage.LoginState.SetPassword | src/features/auth/LoginPage.tsx:24-29 | only the password changes |
| LoginPage.LoginState.BeginSubmit | src/features/auth/LoginPage.tsx:41-60 | the error is cleared and loading starts; missing fields end with the missing-fields error and loading off, and nothing is sent |
| LoginPage.LoginState.CompleteSubmit | src/features/auth/LoginPage.tsx:57-95 | a reply either navigates to the dashboard or sets the mapped error; loading is off afterwards |
| LoginPage.SubmitOnce | src/features/auth/LoginPage.tsx:41-96 | on every path loading ends false; the error ends empty iff the request was sent and the reply succeeded |
| ProtectedRoute.AuthenticatedAfterCheck | src/components/auth/ProtectedRoute.tsx:26-43 | authenticated iff the check answered with no error and with a session; an error or an exception gives false |
| ProtectedRoute.AuthenticatedAfterEvent | src/components/auth/ProtectedRoute.tsx:48-58 | authenticated iff the event carries a session and is not `SIGNED_OUT` |
| ProtectedRoute.RouteDecision | src/components/auth/ProtectedRoute.tsx:66-173 | spinner iff loading; otherwise redirect to `/admin` iff not authenticated; otherwise the outlet |
| ProtectedRoute.ProtectedRouteState.constructor | src/components/auth/ProtectedRoute.tsx:21-22 | starts loading and not authenticated |
| ProtectedRoute.ProtectedRouteState.CheckSession | src/components/auth/ProtectedRoute.tsx:26-43 | records `AuthenticatedAfterCheck` of the reply, and loading is false on every path |
| ProtectedRoute.ProtectedRouteState.OnAuthStateChange | src/components/auth/ProtectedRoute.tsx:48-58 | records `AuthenticatedAfterEvent`; loading is untouched |
| ProtectedRoute.ProtectedRouteState.Render | src/components/auth/ProtectedRoute.tsx:66-173 | the view is `RouteDecision` of the current state |
| Text.Lower | src/features/admin/projects/ProjectForm.tsx:117 | `toLowerCase` keeps the length and lower-cases each character |
| Text.LowerIdempotent | src/features/projects/components/ProjectCard.tsx:113 | lower-casing twice is lower-casing once |
| Text.Trim | src/features/admin/projects/ProjectForm.tsx:118 | `trim` returns a slice of the string that is left after removing a blank prefix and a blank suffix, and that neither starts nor ends with whitespace, which determines it |
| Text.TrimNoOuterSpace | src/features/admin/projects/ProjectForm.tsx:118 | a string without outer whitespace is its own trim |
| Text.TrimDropsOnlySpace | src/features/admin/projects/ProjectForm.tsx:118 | every non-whitespace character of the string survives trimming, at its place in the trimmed slice |
| Text.Split | src/features/admin/DashboardLayout.tsx:72 | `split` always gives at least one piece, and no piece contains the separator |
| Text.SplitJoin | src/features/admin/DashboardLayout.tsx:72-82 | joining pieces without the separator and splitting again gives back the pieces |
| Text.JoinSplit | src/features/admin/DashboardLayout.tsx:72-82 | joining the pieces of a split with the same separator gives back the string |
| Text.CapitalizeWordsMatchesRef | src/features/skills/SkillsGraph.tsx:50-53 | split-on-dash, capitalise and join equals the one-character-at-a-time conversion |
| Seqs.Filter | src/features/admin/projects/AdminProjects.tsx:29 | `filter` keeps exactly the elements satisfying the predicate, as an order-preserving subsequence, and keeps everything when all satisfy it |
| Seqs.FilterMultiset | src/features/admin/projects/ProjectForm.tsx:150 | `filter` keeps every copy of a kept element and no copy of a dropped one |
| Seqs.Take | src/features/projects/ProjectsGallery.tsx:239 | `slice(0, n)` is the first `min(n, length)` elements |
| Seqs.Chips | src/features/admin/projects/AdminProjects.tsx:306-323 | the first `limit` tags, and a `+k` badge iff some are hidden, with k the number hidden |
| Ordering.SortStrings | src/features/projects/ProjectsGallery.tsx:47 | the default string `sort` gives an ascending permutation of its input |

## Left out

- Backend I/O is not modelled: Supabase queries, storage uploads, auth calls and the diagnosis helper are outside the model. Each answer they give is a parameter of the handler that awaits it.
- `refetch` is assumed not to throw. A refetch failure inside a save handler would take the alert path in the source; the model's `HandleSubmit` methods treat it as success.
- The clock and randomness are parameters or left out:
  - the date `new Date().toISOString()` puts in a blank certification form is the parameter `today`;
  - the `Date.now()`/`Math.random()` upload file names are left out, since only the public URL returned by the upload is observable in the model.
- Floating point and animation are left out:
  - the card tilt and mouse maths, the marquee's animation-frame loop and the graph node sizes are float rendering;
  - `wrap` is modelled over integers, since its algebra is the same;
  - an empty window (`min == max`) is `None`, standing for JavaScript's `NaN`.
- Strings are ASCII-only:
  - `\s`, `\w`, `toLowerCase`/`toUpperCase` and the default `sort()` are modelled over ASCII and character order;
  - Unicode whitespace, case mapping and UTF-16 code-unit order are not reproduced.
- The mock data arrays (`mockSkills`, `mockProjects`) are not reproduced. The helpers take them as parameters, and their contents are irrelevant to what is proved.
- CSS class strings, icons and markup are not modelled. The colour schemes in `ProjectCard` are three named values.
- The delete handlers (`handleDelete`) of the admin screens are not modelled. They send one delete, refetch, and alert on failure.
- The project form's loader is modelled at the moment its fetch answers: the constructor takes that answer as the parameter `loaded`. Its `loadingProject` spinner flag is not modelled.
- `projectTypeColors[project.type]` is modelled as a lookup on the three own keys. An inherited key such as `constructor` cannot arrive there, because the projects hook always sets the type to `web`.
- `localStorage` is a `map<string, string>`, and the root `classList` is one boolean. A read or write that throws is a flag.
- Theme.UseTheme: the source throws outside a provider. The model returns that as an error value rather than making it a precondition, so the failing case stays visible.
- Theme.ThemeProvider.SetTheme: the effect runs only when the new mode differs from the current one. React skips the re-render, and so the effect, for an unchanged state. A `setTheme` to the current mode therefore writes nothing to storage.
- AdminSkills.ApplySkillInput: the slider's `parseInt` is modelled by the input carrying an integer. The slider range 0..100 is the `FromSlider` assumption.
- LoginPage.LoginState.CompleteSubmit: the two awaited halves of `handleSubmit` are separate methods. Nothing models another event arriving in between.
- ProtectedRoute.ProtectedRouteState.CheckSession: it is modelled at the moment the awaited call returns. Auth events may arrive before it, and their effect is then overwritten, as in the source.
- The `val = proficiency / 10` node size and the `Math.round` average in the skills graph are not modelled, because they are floats.

## Findings

| source | as written | input that shows it | evidently intended | confidence | as-written member | corrected member |
|---|---|---|---|---|---|---|
| src/features/projects/components/ProjectCard.tsx:112-115 | `techIcons[key] \|\| techIcons.default` reads a plain object literal, so a key such as `constructor` is answered by `Object.prototype` with a function, which is truthy and is rendered instead of an icon | a technology tag `constructor` (or `Constructor`, which lower-cases to it) | unknown keys fall back to `🔧` | not executed | ProjectCard.TechIconAsWrittenConstructor | ProjectCard.GetTechIcon |
| src/features/certifications/components/CertCard.tsx:94-112 | `logos[issuer] \|\| placeholder` reads a plain object literal, so an issuer such as `toString` gets a function; it differs from the placeholder, so the card draws an `<img>` with a function as source instead of the category icon | a certification whose issuer is `toString` | unknown issuers get the placeholder and the category icon | not executed | CertCard.LogoSlotAsWrittenToString | CertCard.LogoSlotOf |
