/**
 Model of src/data/projects.js: the constant table of map landmarks.
 Coordinates are the map image's own pixel coordinates (the design space); the
 lowest box, the Statue of Liberty's, ends at 865 + 154 = 1019.
 */
module ProjectData {
  import opened Wrappers

  /** A record the modal can be opened with. The landmarks of the table are such
      records; records opened from elsewhere may lack a navTarget, a description
      or a link, which is why those fields are optional. */
  datatype Project = Project(
    id: string,
    title: string,
    navTarget: Option<string>,
    image: string,
    left: real,
    top: real,
    width: real,
    height: real,
    description: Option<string>,
    link: Option<string>)

  /** A table entry: every landmark has a navTarget and no description or link. */
  function Landmark(id: string, title: string, navTarget: string, image: string,
                    left: real, top: real, width: real, height: real): Project
  {
    Project(id, title, Some(navTarget), image, left, top, width, height, None, None)
  }

  const Landmarks: seq<Project> := [
    Landmark("empire-state", "Empire State Building", "about",
             "/map_images/Empire State Building.png", 630.0, 127.0, 98.0, 266.0),
    Landmark("one-wtc", "One World Trade Center", "misc",
             "/map_images/One World Trade.png", 283.11, 564.94, 100.29, 313.57),
    Landmark("statue-liberty", "Statue of Liberty", "xg",
             "/map_images/Statue of Liberty.png", 24.0, 865.0, 115.0, 154.0),
    Landmark("clock", "Grand Central Clock", "projects",
             "/map_images/Grand Central Clock.png", 870.9, 266.6, 55.86, 97.75),
    Landmark("walker-tower", "Walker Tower", "contact",
             "/map_images/Walker Tower.png", 398.63, 276.76, 64.75, 139.65)
  ]

  /** The older name kept for backward compatibility: the very same table. */
  const Projects: seq<Project> := Landmarks

  predicate HasPrefix(s: string, prefix: string) {
    |prefix| <= |s| && s[..|prefix|] == prefix
  }

  lemma LandmarkCount()
    ensures |Landmarks| == 5
  {
  }

  lemma LandmarkIdsDistinct()
    ensures forall i, j :: 0 <= i < j < |Landmarks| ==> Landmarks[i].id != Landmarks[j].id
  {
  }

  lemma LandmarkNavTargetsDistinct()
    ensures forall i :: 0 <= i < |Landmarks| ==> Landmarks[i].navTarget.Some?
    ensures forall i, j :: 0 <= i < j < |Landmarks| ==> Landmarks[i].navTarget != Landmarks[j].navTarget
  {
  }

  lemma LandmarkBoxesPositive()
    ensures forall l :: l in Landmarks ==> l.left > 0.0 && l.top > 0.0 && l.width > 0.0 && l.height > 0.0
  {
  }

  lemma LandmarkImagesUnderMapImages()
    ensures forall l :: l in Landmarks ==> HasPrefix(l.image, "/map_images/")
  {
  }

  lemma ProjectsIsLandmarks()
    ensures Projects == Landmarks
  {
  }
}
