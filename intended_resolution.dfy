/**
  The form handler as it is evidently meant to behave, beside the three places
  where `options_from_form` departs from it: an image outside the catalog
  becomes the first catalog image rather than the `default` decorator object;
  a tier the user may not choose becomes the first tier the user may choose
  rather than the first tier of the default entitlement; and the default
  entitlement is read only for a user who falls back to it, so a mapped user
  or an admin can launch without one.
 */
module IntendedResolution {
  import opened Results
  import opened Catalog
  import opened ImageSpawner

  /** Launch options with both fallbacks taken from what this user may choose. */
  function ResolveSelection(cfg: Config, user: User, form: FormData): (r: Result<LaunchOptions, Error>)
    // The container image is always a catalog image.
    ensures r.Success? ==> r.value.containerImage.Image? && r.value.containerImage.name in cfg.dockerImages
    // The tier is always one the user may choose, with its RAM and CPU.
    ensures r.Success? ==> AllowedResources(cfg, user).Success? && r.value.resourceName in AllowedResources(cfg, user).value
    ensures r.Success? ==>
      && r.value.resourceName in cfg.resources.tiers
      && r.value.resourceRam == cfg.resources.tiers[r.value.resourceName].ram
      && r.value.resourceCpu == cfg.resources.tiers[r.value.resourceName].cpu
    // A catalog image and an entitled tier, sent first, are kept.
    ensures r.Success? ==>
      && (ImageField in form ==> |form[ImageField]| > 0)
      && (ResourceField in form ==> |form[ResourceField]| > 0)
    ensures r.Success? && ImageField in form && form[ImageField][0] in cfg.dockerImages ==>
      r.value.containerImage == Image(form[ImageField][0])
    ensures r.Success? && ResourceField in form && form[ResourceField][0] in AllowedResources(cfg, user).value ==>
      r.value.resourceName == form[ResourceField][0]
    // Anything else falls back to the first catalog image and the user's first tier.
    ensures r.Success? && (ImageField !in form || form[ImageField][0] !in cfg.dockerImages) ==>
      r.value.containerImage == Image(cfg.dockerImages[0])
    ensures r.Success? && (ResourceField !in form || form[ResourceField][0] !in AllowedResources(cfg, user).value) ==>
      r.value.resourceName == AllowedResources(cfg, user).value[0]
    // It fails only on a broken catalog or a field sent as an empty list.
    ensures r.Failure? ==>
      || |cfg.dockerImages| == 0
      || (ImageField in form && |form[ImageField]| == 0)
      || (ResourceField in form && |form[ResourceField]| == 0)
      || AllowedResources(cfg, user).Failure?
      || |AllowedResources(cfg, user).value| == 0
      || exists x :: x in AllowedResources(cfg, user).value && x !in cfg.resources.tiers
  {
    if |cfg.dockerImages| == 0 then
      Failure(IndexError)
    else
      var defaultImage := cfg.dockerImages[0];
      var submittedImage :- FirstValue(form, ImageField, defaultImage);
      var image := if submittedImage in cfg.dockerImages then submittedImage else defaultImage;
      var allowed :- AllowedResources(cfg, user);
      if |allowed| == 0 then
        Failure(IndexError)
      else
        var defaultResource := allowed[0];
        var submittedResource :- FirstValue(form, ResourceField, defaultResource);
        var name := if submittedResource in allowed then submittedResource else defaultResource;
        if name !in cfg.resources.tiers then
          Failure(KeyError(name))
        else
          var tier := cfg.resources.tiers[name];
          Success(LaunchOptions(Image(image), name, tier.ram, tier.cpu))
  }

  /** On a catalog image and an entitled tier, the form handler as written and the intended one agree. */
  lemma AgreesOnEntitledSubmissions(cfg: Config, user: User, form: FormData)
    requires ReadsSucceed(cfg, form)
    requires ImageField in form && form[ImageField][0] in cfg.dockerImages
    requires ResourceField in form && form[ResourceField][0] in AllowedResources(cfg, user).value
    ensures ResolveOptions(cfg, user, form) == ResolveSelection(cfg, user, form)
  {
  }

  /**
    As written, an image outside the catalog is launched as the `default`
    decorator object, where the intended handler launches the first catalog image.
   */
  lemma OutOfCatalogImageBecomesDecorator(cfg: Config, user: User, form: FormData)
    requires ReadsSucceed(cfg, form)
    requires ImageField in form && form[ImageField][0] !in cfg.dockerImages
    ensures ResolveOptions(cfg, user, form).Success? ==>
      ResolveOptions(cfg, user, form).value.containerImage == DefaultDecorator
    ensures ResolveSelection(cfg, user, form).Success? ==>
      ResolveSelection(cfg, user, form).value.containerImage == Image(cfg.dockerImages[0])
  {
  }

  /**
    As written, a user with an explicit entitlement who sends no tier, or one
    outside it, is given the default entitlement's first tier even when that
    tier is not theirs to choose.
   */
  lemma FallbackLeavesEntitlement(cfg: Config, user: User, form: FormData)
    requires ReadsSucceed(cfg, form)
    requires user.name in cfg.resourceMapping
    requires cfg.resourceMapping[DefaultKey][0] !in cfg.resourceMapping[user.name]
    requires cfg.resourceMapping[DefaultKey][0] in cfg.resources.tiers
    requires ResourceField in form ==> form[ResourceField][0] !in cfg.resourceMapping[user.name]
    ensures ResolveOptions(cfg, user, form).Success?
    ensures ResolveOptions(cfg, user, form).value.resourceName !in AllowedResources(cfg, user).value
  {
  }

  /** A catalog in which `carol` may only choose the large tier. */
  const CarolConfig: Config := Config(
    ["img-a"],
    ["Image A"],
    TierTable(["small", "large"], map["small" := Tier("Small", 1024.0, 1.0), "large" := Tier("Large", 8192.0, 4.0)]),
    map[DefaultKey := ["small"], "carol" := ["large"]])

  /** The two fallback departures on concrete input: an unknown image and no tier field. */
  lemma DeparturesOnConcreteInput()
    ensures ResolveOptions(CarolConfig, User("carol", false), map[ImageField := ["evil/miner"]])
            == Success(LaunchOptions(DefaultDecorator, "small", 1024.0, 1.0))
    ensures ResolveSelection(CarolConfig, User("carol", false), map[ImageField := ["evil/miner"]])
            == Success(LaunchOptions(Image("img-a"), "large", 8192.0, 4.0))
  {
  }

  /** A catalog without a default entitlement, in which `carol` may only choose the large tier. */
  const NoDefaultConfig: Config := Config(
    ["img-a"],
    ["Image A"],
    TierTable(["large"], map["large" := Tier("Large", 8192.0, 4.0)]),
    map["carol" := ["large"]])

  /**
    As written, a mapped user cannot launch without a default entitlement;
    the intended handler does not read it for them.
   */
  lemma DefaultEntitlementReadOnlyWhenNeeded()
    ensures ResolveOptions(NoDefaultConfig, User("carol", false), map[]) == Failure(KeyError(DefaultKey))
    ensures ResolveSelection(NoDefaultConfig, User("carol", false), map[])
            == Success(LaunchOptions(Image("img-a"), "large", 8192.0, 4.0))
  {
  }
}
