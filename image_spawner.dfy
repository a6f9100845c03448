/**
  The form logic of the image-chooser spawner: which resource tiers a user may
  pick, which choices the spawn form offers, and how a submitted form becomes
  the launch options. The configuration document is a parameter here; reading
  it from disk is not part of this model.
 */
module ImageSpawner {
  import opened Results
  import opened Catalog

  /** The tiers a user may choose from: their own entitlement, every tier for an admin, or the default entitlement. */
  function AllowedResources(cfg: Config, user: User): (r: Result<seq<string>, Error>)
    // An explicit entitlement wins, whatever the admin flag says.
    ensures user.name in cfg.resourceMapping ==> r == Success(cfg.resourceMapping[user.name])
    // An admin without one gets every declared tier, in declared order.
    ensures user.name !in cfg.resourceMapping && user.admin ==> r == Success(cfg.resources.names)
    // Anyone else gets the default entitlement.
    ensures user.name !in cfg.resourceMapping && !user.admin && DefaultKey in cfg.resourceMapping ==>
      r == Success(cfg.resourceMapping[DefaultKey])
    // The lookup fails only for an unmapped non-admin when there is no default entitlement.
    ensures r.Failure? <==> user.name !in cfg.resourceMapping && !user.admin && DefaultKey !in cfg.resourceMapping
    ensures r.Failure? ==> r.error == KeyError(DefaultKey)
  {
    if user.name in cfg.resourceMapping then
      Success(cfg.resourceMapping[user.name])
    else if user.admin then
      Success(cfg.resources.names)
    else if DefaultKey in cfg.resourceMapping then
      Success(cfg.resourceMapping[DefaultKey])
    else
      Failure(KeyError(DefaultKey))
  }

  /** The image menu: `zip` of the image names and their titles, so as long as the shorter list. */
  function ImageChoices(images: seq<string>, titles: seq<string>): (r: seq<Choice>)
    ensures |r| == if |images| <= |titles| then |images| else |titles|
    ensures forall i :: 0 <= i < |r| ==> r[i] == Choice(images[i], titles[i])
  {
    if images == [] || titles == [] then []
    else [Choice(images[0], titles[0])] + ImageChoices(images[1..], titles[1..])
  }

  /** `k` is the first position of `names` that has no tier in `tiers`. */
  predicate FirstUndefinedAt(names: seq<string>, tiers: map<string, Tier>, k: int) {
    && 0 <= k < |names|
    && names[k] !in tiers
    && forall j :: 0 <= j < k ==> names[j] in tiers
  }

  /**
    The resource menu: one choice per allowed tier, in order, titled by that
    tier's entry; the first allowed name without an entry raises a KeyError.
   */
  function ResourceChoices(allowed: seq<string>, resources: Resources): (r: Result<seq<Choice>, Error>)
    ensures r.Success? <==> forall x :: x in allowed ==> x in resources.tiers
    ensures r.Success? ==> |r.value| == |allowed|
    ensures r.Success? ==>
      forall i :: 0 <= i < |allowed| ==> r.value[i] == Choice(allowed[i], resources.tiers[allowed[i]].title)
    ensures r.Failure? ==>
      exists k :: FirstUndefinedAt(allowed, resources.tiers, k) && r.error == KeyError(allowed[k])
  {
    if allowed == [] then
      Success([])
    else if allowed[0] !in resources.tiers then
      assert FirstUndefinedAt(allowed, resources.tiers, 0);
      Failure(KeyError(allowed[0]))
    else
      match ResourceChoices(allowed[1..], resources)
      case Failure(e) =>
        var k :| FirstUndefinedAt(allowed[1..], resources.tiers, k) && e == KeyError(allowed[1..][k]);
        assert FirstUndefinedAt(allowed, resources.tiers, k + 1);
        Failure(e)
      case Success(rest) =>
        Success([Choice(allowed[0], resources.tiers[allowed[0]].title)] + rest)
  }

  /** The two menus of the spawn form shown to `user`. */
  function OptionsForm(cfg: Config, user: User): (r: Result<Form, Error>)
    ensures r.Success? <==>
      && AllowedResources(cfg, user).Success?
      && forall x :: x in AllowedResources(cfg, user).value ==> x in cfg.resources.tiers
    ensures r.Success? ==>
      && |r.value.imageChoices| == (if |cfg.dockerImages| <= |cfg.dockerTitles| then |cfg.dockerImages| else |cfg.dockerTitles|)
      && forall i :: 0 <= i < |r.value.imageChoices| ==>
           r.value.imageChoices[i] == Choice(cfg.dockerImages[i], cfg.dockerTitles[i])
    ensures r.Success? ==>
      var allowed := AllowedResources(cfg, user).value;
      && |r.value.resourceChoices| == |allowed|
      && forall i :: 0 <= i < |allowed| ==>
           r.value.resourceChoices[i] == Choice(allowed[i], cfg.resources.tiers[allowed[i]].title)
    ensures r.Failure? && AllowedResources(cfg, user).Failure? ==> r.error == KeyError(DefaultKey)
    ensures r.Failure? && AllowedResources(cfg, user).Success? ==>
      var allowed := AllowedResources(cfg, user).value;
      exists k :: FirstUndefinedAt(allowed, cfg.resources.tiers, k) && r.error == KeyError(allowed[k])
  {
    var images := ImageChoices(cfg.dockerImages, cfg.dockerTitles);
    var allowed :- AllowedResources(cfg, user);
    var tiers :- ResourceChoices(allowed, cfg.resources);
    Success(Form(images, tiers))
  }

  /** `formdata.get(field, [fallback])[0]`: the first value sent for `field`, or `fallback` when it was not sent. */
  function FirstValue(form: FormData, field: string, fallback: string): (r: Result<string, Error>)
    ensures field !in form ==> r == Success(fallback)
    ensures field in form ==> (r.Success? <==> |form[field]| > 0)
    ensures field in form && r.Success? ==> r.value == form[field][0]
    ensures r.Failure? ==> r.error == IndexError
  {
    var values := if field in form then form[field] else [fallback];
    if |values| == 0 then Failure(IndexError) else Success(values[0])
  }

  /**
    The reads that `options_from_form` makes before it settles anything
    succeed: there is a catalog image, a non-empty default entitlement, and
    no field was sent as an empty list.
   */
  predicate ReadsSucceed(cfg: Config, form: FormData) {
    && |cfg.dockerImages| > 0
    && (ImageField in form ==> |form[ImageField]| > 0)
    && DefaultKey in cfg.resourceMapping
    && |cfg.resourceMapping[DefaultKey]| > 0
    && (ResourceField in form ==> |form[ResourceField]| > 0)
  }

  /**
    Turns a submitted form into launch options, as `options_from_form` does:
    an image outside the catalog becomes the `default` decorator object, and a
    tier the user may not choose becomes the first tier of the default
    entitlement, whether or not the user may choose that one.
   */
  function ResolveOptions(cfg: Config, user: User, form: FormData): (r: Result<LaunchOptions, Error>)
    // A failed read raises before anything is settled.
    ensures !ReadsSucceed(cfg, form) ==> r.Failure? && r.error in {IndexError, KeyError(DefaultKey)}
    ensures ReadsSucceed(cfg, form) ==> AllowedResources(cfg, user).Success?
    ensures r.Success? ==> ReadsSucceed(cfg, form)
    // A catalog image comes back unchanged; any other becomes the decorator, never an image name.
    ensures r.Success? ==>
      var submitted := FirstValue(form, ImageField, cfg.dockerImages[0]).value;
      r.value.containerImage == if submitted in cfg.dockerImages then Image(submitted) else DefaultDecorator
    ensures r.Success? && r.value.containerImage.Image? ==> r.value.containerImage.name in cfg.dockerImages
    // An entitled tier comes back unchanged; any other becomes the default entitlement's first tier.
    ensures r.Success? ==>
      var fallback := cfg.resourceMapping[DefaultKey][0];
      var submitted := FirstValue(form, ResourceField, fallback).value;
      r.value.resourceName == if submitted in AllowedResources(cfg, user).value then submitted else fallback
    // RAM and CPU are those of the settled tier.
    ensures r.Success? ==>
      && r.value.resourceName in cfg.resources.tiers
      && r.value.resourceRam == cfg.resources.tiers[r.value.resourceName].ram
      && r.value.resourceCpu == cfg.resources.tiers[r.value.resourceName].cpu
    // Once the reads succeed, the call fails exactly when the settled tier has
    // no entry, and raises on that tier's name; nothing is substituted for it.
    ensures ReadsSucceed(cfg, form) ==>
      var fallback := cfg.resourceMapping[DefaultKey][0];
      var submitted := FirstValue(form, ResourceField, fallback).value;
      var settled := if submitted in AllowedResources(cfg, user).value then submitted else fallback;
      && (r.Success? <==> settled in cfg.resources.tiers)
      && (r.Failure? ==> r.error == KeyError(settled))
  {
    if |cfg.dockerImages| == 0 then
      Failure(IndexError)
    else
      var defaultImage := cfg.dockerImages[0];
      var submittedImage :- FirstValue(form, ImageField, defaultImage);
      var image := if submittedImage in cfg.dockerImages then Image(submittedImage) else DefaultDecorator;
      if DefaultKey !in cfg.resourceMapping then
        Failure(KeyError(DefaultKey))
      else if |cfg.resourceMapping[DefaultKey]| == 0 then
        Failure(IndexError)
      else
        var defaultResource := cfg.resourceMapping[DefaultKey][0];
        var submittedResource :- FirstValue(form, ResourceField, defaultResource);
        // The default entitlement exists here, so this lookup cannot raise.
        var allowed := AllowedResources(cfg, user).value;
        var name := if submittedResource in allowed then submittedResource else defaultResource;
        if name !in cfg.resources.tiers then
          Failure(KeyError(name))
        else
          var tier := cfg.resources.tiers[name];
          Success(LaunchOptions(image, name, tier.ram, tier.cpu))
  }
}
