/** The Cargo rendering as a renderer of texts, and what it means for a check after a synchronization (service.rs). */
module ServiceRendering {
  import opened Prelude
  import opened CargoManifest
  import opened ServiceSync

  /** A document format reads back what was rendered from a text it could read. Nothing is asked of other documents. */
  ghost predicate ReadsBack(read: string -> Option<Cargo>, write: Cargo -> string, declared: seq<Declared>) {
    forall text | read(text).Some? && Rendered(read(text).value, declared).Ok? ::
      var rendered := Rendered(read(text).value, declared).value;
      read(write(rendered)) == Some(rendered)
  }

  /** `render_cargo` on texts: read the document, render the declared crates, print it. */
  function CargoText(read: string -> Option<Cargo>, write: Cargo -> string, declared: seq<Declared>, text: string)
    : Option<string>
  {
    match read(text)
    case None => None
    case Some(cargo) =>
      match Rendered(cargo, declared)
      case Err(_) => None
      case Ok(rendered) => Some(write(rendered))
  }

  /** The Cargo part of a plan renders the declared crates. */
  ghost predicate RendersCargo(plan: Plan, read: string -> Option<Cargo>, write: Cargo -> string,
                               declared: seq<Declared>) {
    forall text :: plan.cargo(text) == CargoText(read, write, declared, text)
  }

  /** Rendering the text that was rendered gives the same text. */
  lemma CargoTextIsStable(plan: Plan, read: string -> Option<Cargo>, write: Cargo -> string, declared: seq<Declared>)
    requires ReadsBack(read, write, declared) && RendersCargo(plan, read, write, declared)
    ensures Stable(plan.cargo)
  {
    hide Rendered;
    forall text | plan.cargo(text).Some? ensures plan.cargo(plan.cargo(text).value) == plan.cargo(text) {
      var cargo := read(text).value;
      var rendered := Rendered(cargo, declared).value;
      TableOfRendered(cargo, declared);
      RenderIsIdempotent(cargo, declared);
      assert read(write(rendered)) == Some(rendered);
    }
  }

  lemma TableOfRendered(cargo: Cargo, declared: seq<Declared>)
    requires Rendered(cargo, declared).Ok?
    ensures !cargo.dependencies.NotATable?
  {
  }

  /** After a synchronization a check passes, given only that rendering the service context twice changes nothing. */
  lemma CheckPassesAfterSync(files: Files, plan: Plan, faults: Faults, read: string -> Option<Cargo>,
                             write: Cargo -> string,
                             declared: seq<Declared>)
    requires ReadsBack(read, write, declared) && RendersCargo(plan, read, write, declared)
    requires AllFine(faults) && Stable(plan.service)
    requires SyncEffect(files, plan, false, faults).outcome.Done?
    ensures var after := SyncEffect(files, plan, false, faults).files;
            SyncEffect(after, plan, true, faults) == Effect(after, Done([]))
  {
    hide SyncEffect, Stable;
    CargoTextIsStable(plan, read, write, declared);
    CheckPassesIfStable(files, plan, faults);
  }
}
