/** The job descriptor `job.json`: the object written from a job's state,
    and the functions that read a job's fields back from such an object. */
module Descriptor {
  import opened Json
  import opened Pipeline

  const DESCRIPTOR_NAME: string := "job.json"

  /** Paths derived from the job directory. */
  function BuildDir(url: string): string
  {
    url + "/build"
  }

  function MatchDir(url: string): string
  {
    url + "/build/matches"
  }

  function DescriptorFile(url: string): string
  {
    url + "/" + DESCRIPTOR_NAME
  }

  /** The resources array: one entry per image, in list order. */
  function ResourceArray(images: seq<string>): seq<Value>
  {
    seq(|images|, i requires 0 <= i < |images| => Text(images[i]))
  }

  /** The object serializeToJSON fills in. */
  function Serialize(url: string, date: string, user: string, name: string,
                     images: seq<string>, steps: seq<Step>): (obj: JsonObject)
    ensures obj.Keys == {"date", "user", "name", "paths", "resources", "steps"}
    ensures AsObject(obj["paths"]) == map["build" := Text(BuildDir(url)), "match" := Text(MatchDir(url))]
  {
    map["date" := Text(date),
        "user" := Text(user),
        "name" := Text(name),
        "paths" := Object(map["build" := Text(BuildDir(url)), "match" := Text(MatchDir(url))]),
        "resources" := Array(ResourceArray(images)),
        "steps" := Object(StepsObject(steps))]
  }

  /** The user after reading `obj`: replaced only when the key is present. */
  function UserOf(obj: JsonObject, current: string): string
  {
    if "user" in obj then AsString(obj["user"]) else current
  }

  /** The name after reading `obj`: replaced only when the key is present. */
  function NameOf(obj: JsonObject, current: string): string
  {
    if "name" in obj then AsString(obj["name"]) else current
  }

  function Paths(items: seq<Value>): seq<string>
  {
    seq(|items|, i requires 0 <= i < |items| => AsString(items[i]))
  }

  /** The image paths listed in `obj`, in array order; none when the key is
      missing or not an array. */
  function ResourcesOf(obj: JsonObject): seq<string>
  {
    Paths(AsArray(Member(obj, "resources")))
  }

  /** The steps object of `obj`; empty when missing or not an object. */
  function StepsOf(obj: JsonObject): JsonObject
  {
    AsObject(Member(obj, "steps"))
  }

  /** Round trip: reading back a serialized job reproduces its user, name,
      images in order, and every attribute value of a well-formed pipeline
      loaded into a pipeline of the same shape. */
  lemma RoundTrip(url: string, date: string, user: string, name: string, images: seq<string>,
                  steps: seq<Step>, template: seq<Step>, user0: string, name0: string)
    requires WellFormed(steps) && ShapeOf(template) == ShapeOf(steps)
    ensures var obj := Serialize(url, date, user, name, images, steps);
            && UserOf(obj, user0) == user
            && NameOf(obj, name0) == name
            && ResourcesOf(obj) == images
            && LoadSteps(template, StepsOf(obj)) == steps
  {
    var obj := Serialize(url, date, user, name, images, steps);
    assert ResourcesOf(obj) == images;
    LoadStepsRoundTrip(template, steps);
  }

  /** Reading back never looks at `date` or `paths`. */
  lemma ReadBackIgnoresDateAndPaths(obj: JsonObject, date: Value, paths: Value, user0: string, name0: string)
    ensures var o := obj["date" := date]["paths" := paths];
            && UserOf(o, user0) == UserOf(obj, user0)
            && NameOf(o, name0) == NameOf(obj, name0)
            && ResourcesOf(o) == ResourcesOf(obj)
            && StepsOf(o) == StepsOf(obj)
  {
  }
}
