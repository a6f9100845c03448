/** Properties relating the spawner's operations to one another and to the configuration. */
module SpawnerProperties {
  import opened Results
  import opened Catalog
  import opened ImageSpawner

  /** Every tier named by any entitlement has an entry in `resources`. */
  predicate EntitlementsDefined(cfg: Config) {
    forall user, x :: user in cfg.resourceMapping && x in cfg.resourceMapping[user] ==> x in cfg.resources.tiers
  }

  /** Both forms send `field` alike as far as `formdata.get(field, ...)[0]` can tell. */
  predicate SameFirstValue(f1: FormData, f2: FormData, field: string) {
    && (field in f1 <==> field in f2)
    && (field in f1 ==> (|f1[field]| > 0 <==> |f2[field]| > 0))
    && (field in f1 && |f1[field]| > 0 ==> f1[field][0] == f2[field][0])
  }

  /** For a user with an explicit entitlement the admin flag changes nothing, neither the tiers nor the menu. */
  lemma MappedUserIgnoresAdminFlag(cfg: Config, name: string)
    requires name in cfg.resourceMapping
    ensures AllowedResources(cfg, User(name, true)) == AllowedResources(cfg, User(name, false))
    ensures OptionsForm(cfg, User(name, true)) == OptionsForm(cfg, User(name, false))
  {
  }

  /**
    An admin without an explicit entitlement is offered every declared tier,
    each once, in declared order, and building that menu never raises.
   */
  lemma AdminIsOfferedEveryTier(cfg: Config, name: string)
    requires name !in cfg.resourceMapping
    ensures OptionsForm(cfg, User(name, true)).Success?
    ensures var choices := OptionsForm(cfg, User(name, true)).value.resourceChoices;
      && |choices| == |cfg.resources.names|
      && (forall i :: 0 <= i < |choices| ==> choices[i].value == cfg.resources.names[i])
      && (forall i, j :: 0 <= i < j < |choices| ==> choices[i].value != choices[j].value)
      && (forall x :: x in cfg.resources.tiers ==> exists i :: 0 <= i < |choices| && choices[i] == Choice(x, cfg.resources.tiers[x].title))
  {
  }

  /**
    Submitting any image and any tier that the form offered gives them back
    unchanged, with the tier's RAM and CPU, when the submission is resolved
    against the configuration the form was built from, provided the default
    entitlement the form handler reads first exists.
   */
  lemma OfferedChoicesRoundTrip(cfg: Config, user: User, form: FormData, i: int, j: int)
    requires OptionsForm(cfg, user).Success?
    requires DefaultKey in cfg.resourceMapping && |cfg.resourceMapping[DefaultKey]| > 0
    requires 0 <= i < |OptionsForm(cfg, user).value.imageChoices|
    requires 0 <= j < |OptionsForm(cfg, user).value.resourceChoices|
    requires ImageField in form && |form[ImageField]| > 0
    requires form[ImageField][0] == OptionsForm(cfg, user).value.imageChoices[i].value
    requires ResourceField in form && |form[ResourceField]| > 0
    requires form[ResourceField][0] == OptionsForm(cfg, user).value.resourceChoices[j].value
    ensures var image := form[ImageField][0];
      var name := form[ResourceField][0];
      && name in cfg.resources.tiers
      && ResolveOptions(cfg, user, form)
         == Success(LaunchOptions(Image(image), name, cfg.resources.tiers[name].ram, cfg.resources.tiers[name].cpu))
  {
  }

  /**
    The form and the form handler each read the configuration for themselves.
    An image the form offered but a later configuration no longer lists is
    launched as the `default` decorator object, not as that image.
   */
  lemma StaleFormImageBecomesDecorator(built: Config, current: Config, user: User, form: FormData, i: int)
    requires OptionsForm(built, user).Success?
    requires 0 <= i < |OptionsForm(built, user).value.imageChoices|
    requires ImageField in form && |form[ImageField]| > 0
    requires form[ImageField][0] == OptionsForm(built, user).value.imageChoices[i].value
    requires form[ImageField][0] !in current.dockerImages
    ensures ResolveOptions(current, user, form).Success? ==>
      ResolveOptions(current, user, form).value.containerImage == DefaultDecorator
  {
  }

  /** Only the first value sent for each field matters; other fields are ignored. */
  lemma OnlyFirstValueCounts(cfg: Config, user: User, f1: FormData, f2: FormData)
    requires SameFirstValue(f1, f2, ImageField) && SameFirstValue(f1, f2, ResourceField)
    ensures ResolveOptions(cfg, user, f1) == ResolveOptions(cfg, user, f2)
  {
  }

  /**
    When every entitled tier is defined, neither the form nor the form
    handler raises on anything but the reads of `ReadsSucceed`.
   */
  lemma ConsistentCatalogNeverFails(cfg: Config, user: User, form: FormData)
    requires EntitlementsDefined(cfg)
    requires ReadsSucceed(cfg, form)
    ensures OptionsForm(cfg, user).Success?
    ensures ResolveOptions(cfg, user, form).Success?
  {
  }

  /**
    The form handler reads the default entitlement before anything else about
    resources, so even a user with an explicit entitlement cannot launch when
    it is missing, although the form shown to them is built without it.
   */
  lemma MappedUserNeedsDefaultEntitlement(cfg: Config, user: User, form: FormData)
    requires user.name in cfg.resourceMapping && DefaultKey !in cfg.resourceMapping
    requires |cfg.dockerImages| > 0
    requires ImageField in form ==> |form[ImageField]| > 0
    ensures AllowedResources(cfg, user).Success?
    ensures ResolveOptions(cfg, user, form) == Failure(KeyError(DefaultKey))
  {
  }

  /** A small catalog: two images, two tiers, a default and one explicit entitlement. */
  const ExampleConfig: Config := Config(
    ["img-a", "img-b"],
    ["Image A", "Image B"],
    TierTable(["small", "large"], map["small" := Tier("Small", 1024.0, 1.0), "large" := Tier("Large", 8192.0, 4.0)]),
    map[DefaultKey := ["small"], "alice" := ["small", "large"]])

  /** Alice may pick the large tier; Bob, unmapped and no admin, is moved to the default tier. */
  lemma ExampleResolutions()
    ensures ResolveOptions(ExampleConfig, User("alice", false), map[ImageField := ["img-b"], ResourceField := ["large"]])
            == Success(LaunchOptions(Image("img-b"), "large", 8192.0, 4.0))
    ensures ResolveOptions(ExampleConfig, User("bob", false), map[ResourceField := ["large"]])
            == Success(LaunchOptions(Image("img-a"), "small", 1024.0, 1.0))
  {
  }
}
