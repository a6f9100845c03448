/**
  The data the image-chooser spawner works on: the spawn configuration document
  (already parsed), the identity of the user asking, the form the user submits,
  and the records the spawner produces from them.
 */
module Catalog {

  /** One entry of the configuration's `resources` object: a resource tier. */
  datatype Tier = Tier(title: string, ram: real, cpu: real)

  /**
    A parsed JSON object from tier name to tier. Like the Python dict it is
    parsed into, its keys are distinct and keep their declared order.
   */
  datatype TierTable = TierTable(names: seq<string>, tiers: map<string, Tier>) {
    predicate Valid() {
      && (forall i, j :: 0 <= i < j < |names| ==> names[i] != names[j])
      && tiers.Keys == set x | x in names
    }
  }

  type Resources = t: TierTable | t.Valid() witness TierTable([], map[])

  /**
    The spawn configuration: parallel lists of image names and their titles,
    the resource tiers, and the entitlements from user name to tier names.
   */
  datatype Config = Config(
    dockerImages: seq<string>,
    dockerTitles: seq<string>,
    resources: Resources,
    resourceMapping: map<string, seq<string>>)

  /** The part of the host's user record the spawner reads. */
  datatype User = User(name: string, admin: bool)

  /**
    What ends up in the `container_image` option: an image name, or the
    `default` decorator object of traitlets, which the source assigns to an
    image it does not recognise.
   */
  datatype ContainerImage = Image(name: string) | DefaultDecorator

  /** The options record handed to the launch step. */
  datatype LaunchOptions = LaunchOptions(
    containerImage: ContainerImage,
    resourceName: string,
    resourceRam: real,
    resourceCpu: real)

  /** One `<option>` of a drop-down menu: the submitted value and the shown title. */
  datatype Choice = Choice(value: string, title: string)

  /** The two drop-down menus of the spawn form. */
  datatype Form = Form(imageChoices: seq<Choice>, resourceChoices: seq<Choice>)

  /** Submitted form data: each field name maps to the list of values sent for it. */
  type FormData = map<string, seq<string>>

  /** The Python exceptions the spawner can raise on its inputs. */
  datatype Error = KeyError(key: string) | IndexError

  /** The entitlement key that holds the fallback tier list. */
  const DefaultKey: string := "default"
  /** The form field that carries the chosen image. */
  const ImageField: string := "dockerimage"
  /** The form field that carries the chosen resource tier. */
  const ResourceField: string := "resources"
}
