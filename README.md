# Image-chooser spawner: form logic in Dafny

`MarathonImageChooserSpawner` lets a user of a multi-user notebook hub pick a
container image and a resource tier before their server is launched. This
project models the spawner's form logic as pure functions over an already
parsed spawn configuration:

- which resource tiers a user may choose (`get_allowed_resources`);
- which choices the spawn form offers (`_options_form`): one per (image, title)
  pair, truncated to the shorter list as `zip` does, then one per allowed tier
  with that tier's title;
- how a submitted form becomes the launch options (`options_from_form`).

The configuration (`Catalog.Config`) holds the parallel `dockerimages` and
`dockertitles` lists, the `resources` object (tier names in declared order and
a map to title, RAM and CPU), and `resource_mapping` (user name to tier names,
with the reserved `default` key). Python's `KeyError` and `IndexError` are the
`Failure` side of a `Result`, raised in the source's evaluation order. The
`default` object that the source assigns to an unknown image is the
`DefaultDecorator` constructor of `ContainerImage`. Every operation is a
function, so resolving the same submission twice against the same
configuration gives the same options.

Where the code departs from what it evidently intends, the model follows the
code:

- An image outside the catalog becomes the traitlets `default` decorator, not
  the first catalog image.
- A tier the user may not choose becomes the first tier of the `default`
  entitlement, not the first tier the user may choose. That tier may be outside
  the user's own list.
- The form handler reads `resource_mapping['default']` for every user. A user
  with an explicit entitlement therefore cannot launch when that key is
  missing, although their form is still built.
- The image menu is the `zip` of images and titles, so an image without a
  title is not offered.

`IntendedResolution.ResolveSelection` is the handler with the first three
points corrected: besides its two fallbacks, it reads
`resource_mapping['default']` only for a user who falls back to it, so a
mapped user or an admin can launch without that key. The findings below
relate it to the code as written.

## Model

| member | source | states |
|---|---|---|
| `ImageSpawner.AllowedResources` | imagespawner/imagespawner.py:51-58 | an explicit entitlement is returned whatever the admin flag; an unmapped admin gets every tier name in declared order; anyone else gets the `default` list; it fails, with `KeyError('default')`, exactly for an unmapped non-admin when that key is missing |
| `ImageSpawner.ImageChoices` | imagespawner/imagespawner.py:65-67 | the image menu has min(images, titles) entries and entry i pairs image i with title i |
| `ImageSpawner.ResourceChoices` | imagespawner/imagespawner.py:69 | the tier menu succeeds iff every allowed name has an entry; it then has one choice per allowed name, in order, titled from that entry; otherwise it raises `KeyError` on the first undefined name |
| `ImageSpawner.OptionsForm` | imagespawner/imagespawner.py:60-70 | the form's two menus as above; it fails with `KeyError('default')` when the tier lookup does, else with the first undefined allowed tier |
| `ImageSpawner.FirstValue` | imagespawner/imagespawner.py:81 | `formdata.get(field, [fallback])[0]`: the fallback when the field is absent, the first value sent otherwise, `IndexError` on an empty list |
| `ImageSpawner.ResolveOptions` | imagespawner/imagespawner.py:72-106 | a failed read of lines 78-87 raises; a catalog image is kept and any other becomes the decorator, never an image name; an entitled tier is kept and any other becomes `default[0]`; it fails exactly when the settled tier has no entry, with `KeyError` on it; RAM and CPU are the settled tier's |
| `SpawnerProperties.MappedUserIgnoresAdminFlag` | imagespawner/imagespawner.py:51-55 | for a mapped user the admin flag changes neither the allowed tiers nor the form |
| `SpawnerProperties.AdminIsOfferedEveryTier` | imagespawner/imagespawner.py:54-69 | an unmapped admin's form never fails and lists every declared tier exactly once, in declared order, with its title |
| `SpawnerProperties.OfferedChoicesRoundTrip` | imagespawner/imagespawner.py:60-106 | submitting any offered image and tier, against the configuration the form was built from, gives them back unchanged, with the tier's RAM and CPU, when the `default` entitlement is non-empty |
| `SpawnerProperties.StaleFormImageBecomesDecorator` | imagespawner/imagespawner.py:60-84 | an image offered by a form built from one configuration, submitted against a configuration that no longer lists it, is launched as the decorator object |
| `SpawnerProperties.OnlyFirstValueCounts` | imagespawner/imagespawner.py:81-87 | two forms that agree on the presence and first value of both fields resolve alike |
| `SpawnerProperties.ConsistentCatalogNeverFails` | imagespawner/imagespawner.py:60-106 | when every entitled tier is defined and the reads succeed, neither the form nor the handler fails |
| `SpawnerProperties.MappedUserNeedsDefaultEntitlement` | imagespawner/imagespawner.py:86 | without a `default` entitlement a mapped user's tiers are found but the handler raises `KeyError('default')` |
| `SpawnerProperties.ExampleResolutions` | imagespawner/imagespawner.py:72-106 | on a two-tier catalog, an entitled large tier is kept and an unentitled one becomes the default small tier |
| `IntendedResolution.ResolveSelection` | imagespawner/imagespawner.py:72-106 | the corrected handler: the image is always a catalog image, the tier always one the user may choose, fallbacks are the first catalog image and the user's first tier, and it fails only on a broken catalog or an empty field |
| `IntendedResolution.AgreesOnEntitledSubmissions` | imagespawner/imagespawner.py:78-93 | on a catalog image and an entitled tier the code as written and the corrected handler agree |
| `IntendedResolution.OutOfCatalogImageBecomesDecorator` | imagespawner/imagespawner.py:84 | as written an unknown image is launched as the decorator object; the corrected handler launches the first catalog image |
| `IntendedResolution.FallbackLeavesEntitlement` | imagespawner/imagespawner.py:86-92 | as written a mapped user who sends no entitled tier is given `default[0]` even when it is not in their list |
| `IntendedResolution.DeparturesOnConcreteInput` | imagespawner/imagespawner.py:84-92 | both fallback departures on one concrete catalog, user and form |
| `IntendedResolution.DefaultEntitlementReadOnlyWhenNeeded` | imagespawner/imagespawner.py:86 | on a catalog without a `default` entitlement a mapped user's submission raises `KeyError('default')` as written, and launches their own tier in the corrected handler |

## Findings

| source | as written | input that shows it | evidently intended | confidence | as-written member | corrected member |
|---|---|---|---|---|---|---|
| imagespawner/imagespawner.py:84 | an image outside `dockerimages` is replaced by `default`, which is the traitlets decorator imported at line 3 | catalog `["img-a"]`, form `{'dockerimage': ['evil/miner']}` gives `container_image` = the decorator object | replace it with the first catalog image | high, not executed | `IntendedResolution.OutOfCatalogImageBecomesDecorator` | `IntendedResolution.ResolveSelection` |
| imagespawner/imagespawner.py:86-92 | an unentitled or missing tier is replaced by `resource_mapping['default'][0]` | mapping `{'default': ['small'], 'carol': ['large']}`, user `carol`, no `resources` field, gives tier `small`, which carol may not choose | replace it with the first tier the user may choose | medium, not executed | `IntendedResolution.FallbackLeavesEntitlement` | `IntendedResolution.ResolveSelection` |

## Left out

- Reading and JSON-parsing `/data/spawn.json` (imagespawner/imagespawner.py:63-64, 75-76): file I/O. The parsed configuration is a parameter.
- The form and the form handler read the file separately (imagespawner/imagespawner.py:64, 76), and traitlets computes the form once per spawner through `@default('options_form')` (imagespawner/imagespawner.py:60) and reuses it. `OfferedChoicesRoundTrip` and `ConsistentCatalogNeverFails` assume one configuration for both reads. A stale form, built before the file was edited, can offer an image that the handler then turns into the decorator object; `StaleFormImageBecomesDecorator` states that case.
- The shape of the JSON document: the model's configuration is a typed record. A missing top-level key, a tier without `title`, `ram` or `cpu`, a value of the wrong type, and duplicate keys in one JSON object are not modelled.
- RAM and CPU are JSON numbers, modelled as `real` and passed through unchanged.
- `start` and the `MarathonSpawner` base class (imagespawner/imagespawner.py:1, 6, 108-119): a call into an orchestration library that is not part of this model.
- The logging calls (imagespawner/imagespawner.py:88, 90, 99): side effects only.
- The traitlets trait declarations and the `@default('options_form')` registration (imagespawner/imagespawner.py:19-49, 60): host configuration. The `minlen = 1` of the image traits does not apply to the lists read from the file, so the model allows empty lists.
- The HTML text of `form_template` and `option_template` and `str.format` (imagespawner/imagespawner.py:33-49, 70): the form is modelled as two lists of (value, title) choices, without escaping or templating.
- The user record is reduced to its name and admin flag, the part the spawner reads.
