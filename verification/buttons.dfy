/** `buttonsForProjects`: the interactive project choice offered when a session starts
    and again after every successful submission. */
module Buttons {
  import opened HarvestTypes

  /** One button per project, in the project list's order, labelled with the project's
      name and carrying its id. */
  function ButtonsForProjects(ps: seq<Project>): (r: seq<Button>)
    ensures |r| == |ps|
    ensures forall i :: 0 <= i < |ps| ==> r[i].text == ps[i].name && r[i].value == ps[i].id
    decreases |ps|
  {
    if |ps| == 0 then []
    else [Button(ps[0].name, ps[0].id)] + ButtonsForProjects(ps[1..])
  }

  /** Rendering commutes with concatenation: the buttons of two project lists shown one
      after the other are the buttons of the joined list. */
  lemma ButtonsOfConcat(ps: seq<Project>, qs: seq<Project>)
    ensures ButtonsForProjects(ps + qs) == ButtonsForProjects(ps) + ButtonsForProjects(qs)
  {
  }
}
