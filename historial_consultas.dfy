/**
 * The consultation history screen of
 * src/app/screens/historial-consultas/historial-consultas.component.ts: the
 * consultations with their search text, the doctor and reason pick-lists,
 * and the conjunctive filters over child, doctor, reason, date range and a
 * free-text search.
 */
module HistorialConsultas {
  import opened Wrappers
  import opened Text
  import opened Seqs
  import opened Ordering

  /** The fields of a medical consultation the screen reads. */
  datatype Consultation = Consultation(
    id: Option<string>, childId: string, childName: string, date: string, time: string,
    doctor: string, reason: string, diagnosis: string, treatment: string, status: string)

  /** A consultation with the lowercased text the search term is looked up in. */
  datatype ConsultationView = ConsultationView(consultation: Consultation, searchText: string)

  /** The text searched: child name, doctor, reason, diagnosis and treatment, space separated. */
  function SearchSource(c: Consultation): string {
    c.childName + " " + c.doctor + " " + c.reason + " " + c.diagnosis + " " + c.treatment
  }

  /** The view `processConsultations` builds for one consultation. */
  function View(c: Consultation): (v: ConsultationView)
    ensures v.consultation == c
    ensures |v.searchText| == |SearchSource(c)|
    ensures ToLower(v.searchText) == v.searchText
  {
    ToLowerIdempotent(SearchSource(c));
    ConsultationView(c, ToLower(SearchSource(c)))
  }

  /** The filter fields; an empty string means the filter is off. */
  datatype Filters = Filters(
    child: string, doctor: string, reason: string, searchTerm: string, dateFrom: string, dateTo: string)

  const NoFilters := Filters("", "", "", "", "", "")

  /** The test `applyFilters` runs on one consultation. */
  predicate Passes(v: ConsultationView, f: Filters) {
    var c := v.consultation;
    && (f.child != "" ==> c.childId == f.child)
    && (f.doctor != "" ==> c.doctor == f.doctor)
    && (f.reason != "" ==> c.reason == f.reason)
    && (f.dateFrom != "" ==> !StrLt(c.date, f.dateFrom))
    && (f.dateTo != "" ==> !StrLt(f.dateTo, c.date))
    && (f.searchTerm != "" ==> Contains(v.searchText, ToLower(f.searchTerm)))
  }

  /** The date bounds are inclusive: a consultation on either bound passes them. */
  lemma DateRangeInclusive(v: ConsultationView, from: string, to: string)
    requires from != "" && to != ""
    ensures Passes(v, Filters("", "", "", "", from, to)) <==>
      (v.consultation.date == from || StrLt(from, v.consultation.date))
      && (v.consultation.date == to || StrLt(v.consultation.date, to))
  {
    var d := v.consultation.date;
    StrLtTotal(d, from);
    StrLtTotal(d, to);
    if StrLt(from, d) { StrLtAsymmetric(from, d); }
    if StrLt(d, to) { StrLtAsymmetric(d, to); }
    if d == from { StrLtIrreflexive(d); }
    if d == to { StrLtIrreflexive(d); }
  }

  /** A search term spelling any one of the searched fields, in any case, finds the consultation. */
  lemma SearchFindsEachField(c: Consultation, term: string)
    requires term != ""
    requires ToLower(term) in {ToLower(c.childName), ToLower(c.doctor), ToLower(c.reason),
                               ToLower(c.diagnosis), ToLower(c.treatment)}
    ensures Contains(View(c).searchText, ToLower(term))
    ensures Passes(View(c), Filters("", "", "", term, "", ""))
  {
    SearchTextLayout(c);
    FieldOfFive(ToLower(c.childName), ToLower(c.doctor), ToLower(c.reason),
                ToLower(c.diagnosis), ToLower(c.treatment), ToLower(term));
  }

  /** Each of five space-joined words occurs in the joined text. */
  lemma FieldOfFive(a: string, b: string, c: string, d: string, e: string, k: string)
    requires k in {a, b, c, d, e}
    ensures Contains(a + " " + b + " " + c + " " + d + " " + e, k)
  {
    var sp := " ";
    var text := a + sp + b + sp + c + sp + d + sp + e;
    if k == a {
      assert text == "" + a + (sp + b + sp + c + sp + d + sp + e);
      ContainsInfix("", a, sp + b + sp + c + sp + d + sp + e);
    } else if k == b {
      assert text == (a + sp) + b + (sp + c + sp + d + sp + e);
      ContainsInfix(a + sp, b, sp + c + sp + d + sp + e);
    } else if k == c {
      assert text == (a + sp + b + sp) + c + (sp + d + sp + e);
      ContainsInfix(a + sp + b + sp, c, sp + d + sp + e);
    } else if k == d {
      assert text == (a + sp + b + sp + c + sp) + d + (sp + e);
      ContainsInfix(a + sp + b + sp + c + sp, d, sp + e);
    } else {
      assert text == (a + sp + b + sp + c + sp + d + sp) + e + "";
      ContainsInfix(a + sp + b + sp + c + sp + d + sp, e, "");
    }
  }

  /** The search text is the five fields, each lowercased, space separated. */
  lemma SearchTextLayout(c: Consultation)
    ensures View(c).searchText == ToLower(c.childName) + " " + ToLower(c.doctor) + " " + ToLower(c.reason)
                                  + " " + ToLower(c.diagnosis) + " " + ToLower(c.treatment)
  {
    var n, d, r, g := c.childName, c.doctor, c.reason, c.diagnosis;
    ToLowerJoin(n + " " + d + " " + r + " " + g, c.treatment);
    ToLowerJoin(n + " " + d + " " + r, g);
    ToLowerJoin(n + " " + d, r);
    ToLowerJoin(n, d);
  }

  /** The search ignores the case of the term. */
  lemma SearchIgnoresTermCase(v: ConsultationView, f: Filters)
    ensures Passes(v, f) <==> Passes(v, f.(searchTerm := ToLower(f.searchTerm)))
  {
    ToLowerIdempotent(f.searchTerm);
  }

  /** `getStatusClass`: the class of the three known statuses, else 'status-default'. */
  function StatusClass(status: string): (r: string)
    ensures status == "completed" ==> r == "status-completed"
    ensures status == "in-progress" ==> r == "status-progress"
    ensures status == "cancelled" ==> r == "status-cancelled"
    ensures status !in {"completed", "in-progress", "cancelled"} ==> r == "status-default"
  {
    if status == "completed" then "status-completed"
    else if status == "in-progress" then "status-progress"
    else if status == "cancelled" then "status-cancelled"
    else "status-default"
  }

  /** `getStatusText`: the Spanish label of the three known statuses, else the status itself. */
  function StatusText(status: string): (r: string)
    ensures status == "completed" ==> r == "Completada"
    ensures status == "in-progress" ==> r == "En Progreso"
    ensures status == "cancelled" ==> r == "Cancelada"
    ensures status !in {"completed", "in-progress", "cancelled"} ==> r == status
  {
    if status == "completed" then "Completada"
    else if status == "in-progress" then "En Progreso"
    else if status == "cancelled" then "Cancelada"
    else status
  }

  /** The consultations passing the filters, in their order. */
  function Filtered(vs: seq<ConsultationView>, f: Filters): seq<ConsultationView> {
    Filter(vs, (v: ConsultationView) => Passes(v, f))
  }

  function Doctor(v: ConsultationView): string { v.consultation.doctor }
  function Reason(v: ConsultationView): string { v.consultation.reason }

  class HistorialConsultasComponent {
    var consultations: seq<ConsultationView>
    var filteredConsultations: seq<ConsultationView>
    var selectedChild: string
    var selectedDoctor: string
    var selectedReason: string
    var searchTerm: string
    var dateFrom: string
    var dateTo: string
    var doctors: seq<string>
    var reasons: seq<string>

    /** The filter fields as one value. */
    function CurrentFilters(): Filters
      reads this
    {
      Filters(selectedChild, selectedDoctor, selectedReason, searchTerm, dateFrom, dateTo)
    }

    constructor()
      ensures consultations == [] && filteredConsultations == []
      ensures CurrentFilters() == NoFilters
      ensures doctors == [] && reasons == []
    {
      consultations := [];
      filteredConsultations := [];
      selectedChild, selectedDoctor, selectedReason := "", "", "";
      searchTerm, dateFrom, dateTo := "", "", "";
      doctors, reasons := [], [];
    }

    /** `processConsultations`: one view per consultation, in order. */
    method ProcessConsultations(cs: seq<Consultation>)
      modifies this`consultations
      ensures |consultations| == |cs|
      ensures forall i :: 0 <= i < |cs| ==> consultations[i] == View(cs[i])
    {
      consultations := Map(cs, View);
    }

    /** `extractFilterOptions`: the distinct doctors and reasons, each in ascending order. */
    method ExtractFilterOptions()
      modifies this`doctors, this`reasons
      ensures StrictlySorted(doctors) && StrictlySorted(reasons)
      ensures forall d :: d in doctors <==> exists i :: 0 <= i < |consultations| && consultations[i].consultation.doctor == d
      ensures forall r :: r in reasons <==> exists i :: 0 <= i < |consultations| && consultations[i].consultation.reason == r
    {
      var ds := Map(consultations, Doctor);
      var rs := Map(consultations, Reason);
      doctors := SortedDistinct(ds);
      reasons := SortedDistinct(rs);
      forall d | d in doctors
        ensures exists i :: 0 <= i < |consultations| && consultations[i].consultation.doctor == d
      {
        var i :| 0 <= i < |ds| && ds[i] == d;
      }
      forall r | r in reasons
        ensures exists i :: 0 <= i < |consultations| && consultations[i].consultation.reason == r
      {
        var i :| 0 <= i < |rs| && rs[i] == r;
      }
      forall d, i | 0 <= i < |consultations| && consultations[i].consultation.doctor == d
        ensures d in doctors
      {
        assert ds[i] == d;
      }
      forall r, i | 0 <= i < |consultations| && consultations[i].consultation.reason == r
        ensures r in reasons
      {
        assert rs[i] == r;
      }
    }

    /**
     * `applyFilters`: the consultations passing every filter that is set, in
     * their order; the consultations themselves are untouched.
     */
    method ApplyFilters()
      modifies this`filteredConsultations
      ensures filteredConsultations == Filtered(consultations, CurrentFilters())
      ensures IsSubsequence(filteredConsultations, consultations)
      ensures forall i :: 0 <= i < |filteredConsultations| ==> Passes(filteredConsultations[i], CurrentFilters())
      ensures forall i :: 0 <= i < |consultations| && Passes(consultations[i], CurrentFilters()) ==>
        consultations[i] in filteredConsultations
    {
      var f := CurrentFilters();
      filteredConsultations := Filter(consultations, (v: ConsultationView) => Passes(v, f));
      FilterIsSubsequence(consultations, (v: ConsultationView) => Passes(v, f));
    }

    /** `clearFilters`: every filter off, so every consultation is listed. */
    method ClearFilters()
      modifies this`selectedChild, this`selectedDoctor, this`selectedReason, this`searchTerm,
               this`dateFrom, this`dateTo, this`filteredConsultations
      ensures CurrentFilters() == NoFilters
      ensures filteredConsultations == consultations
    {
      selectedChild, selectedDoctor, selectedReason := "", "", "";
      searchTerm, dateFrom, dateTo := "", "", "";
      ApplyFilters();
      FilterAll(consultations, (v: ConsultationView) => Passes(v, NoFilters));
    }
  }

  /** Filtering the already filtered list changes nothing. */
  lemma RefilterIsNoOp(vs: seq<ConsultationView>, f: Filters)
    ensures Filter(Filter(vs, (v: ConsultationView) => Passes(v, f)), (v: ConsultationView) => Passes(v, f))
         == Filter(vs, (v: ConsultationView) => Passes(v, f))
  {
    FilterIdempotent(vs, (v: ConsultationView) => Passes(v, f));
  }
}
