/**
 * The prescription history screen of
 * src/app/screens/historial-recetas/historial-recetas.component.ts: the
 * prescriptions with their search text and cost, the conjunctive filters (the
 * treatment filter only in the list view), the selected prescription and the
 * two views, the local status update, and a child's age.
 */
module HistorialRecetas {
  import opened Wrappers
  import opened Text
  import opened Seqs
  import opened Ordering
  import opened Calendar

  /** The fields of a medical prescription the screen reads. */
  datatype Prescription = Prescription(
    id: Option<string>, childId: string, childName: string, date: string, doctor: string,
    diagnosis: string, treatmentName: string, status: string, cost: Option<int>)

  /** A prescription with its lowercased search text and its cost. */
  datatype PrescriptionView = PrescriptionView(prescription: Prescription, searchText: string, totalCost: int)

  /** The text searched: child name, doctor, diagnosis and treatment, space separated. */
  function SearchSource(p: Prescription): string {
    p.childName + " " + p.doctor + " " + p.diagnosis + " " + p.treatmentName
  }

  /** The view `processPrescriptions` builds for one prescription. */
  function View(p: Prescription): (v: PrescriptionView)
    ensures v.prescription == p
    ensures ToLower(v.searchText) == v.searchText && |v.searchText| == |SearchSource(p)|
    ensures p.cost.None? ==> v.totalCost == 0
    ensures p.cost.Some? ==> v.totalCost == p.cost.value
  {
    ToLowerIdempotent(SearchSource(p));
    PrescriptionView(p, ToLower(SearchSource(p)), match p.cost case Some(c) => c case None => 0)
  }

  /** The search text is the four fields, each lowercased, space separated. */
  lemma SearchTextLayout(p: Prescription)
    ensures View(p).searchText == ToLower(p.childName) + " " + ToLower(p.doctor) + " "
                                  + ToLower(p.diagnosis) + " " + ToLower(p.treatmentName)
  {
    ToLowerJoin(p.childName + " " + p.doctor + " " + p.diagnosis, p.treatmentName);
    ToLowerJoin(p.childName + " " + p.doctor, p.diagnosis);
    ToLowerJoin(p.childName, p.doctor);
  }

  /** Each of four space-joined words occurs in the joined text. */
  lemma FieldOfFour(a: string, b: string, c: string, d: string, k: string)
    requires k in {a, b, c, d}
    ensures Contains(a + " " + b + " " + c + " " + d, k)
  {
    var sp := " ";
    var text := a + sp + b + sp + c + sp + d;
    if k == a {
      assert text == "" + a + (sp + b + sp + c + sp + d);
      ContainsInfix("", a, sp + b + sp + c + sp + d);
    } else if k == b {
      assert text == (a + sp) + b + (sp + c + sp + d);
      ContainsInfix(a + sp, b, sp + c + sp + d);
    } else if k == c {
      assert text == (a + sp + b + sp) + c + (sp + d);
      ContainsInfix(a + sp + b + sp, c, sp + d);
    } else {
      assert text == (a + sp + b + sp + c + sp) + d + "";
      ContainsInfix(a + sp + b + sp + c + sp, d, "");
    }
  }

  /** A search term spelling any one of the searched fields, in any case, occurs in the search text. */
  lemma SearchFindsEachField(p: Prescription, term: string)
    requires ToLower(term) in {ToLower(p.childName), ToLower(p.doctor), ToLower(p.diagnosis), ToLower(p.treatmentName)}
    ensures Contains(View(p).searchText, ToLower(term))
  {
    SearchTextLayout(p);
    FieldOfFour(ToLower(p.childName), ToLower(p.doctor), ToLower(p.diagnosis), ToLower(p.treatmentName), ToLower(term));
  }

  datatype ViewMode = ListView | BitacoraView

  /** The filter fields and the view; an empty string means the filter is off. */
  datatype Filters = Filters(
    child: string, doctor: string, status: string, searchTerm: string,
    dateFrom: string, dateTo: string, treatment: string, view: ViewMode)

  /** The test `applyFilters` runs on one prescription. */
  predicate Passes(v: PrescriptionView, f: Filters) {
    var p := v.prescription;
    && (f.child != "" ==> p.childId == f.child)
    && (f.doctor != "" ==> p.doctor == f.doctor)
    && (f.status != "" ==> p.status == f.status)
    && (f.dateFrom != "" ==> !StrLt(p.date, f.dateFrom))
    && (f.dateTo != "" ==> !StrLt(f.dateTo, p.date))
    && (f.searchTerm != "" ==> Contains(v.searchText, ToLower(f.searchTerm)))
    && (f.treatment != "" && f.view == ListView ==> Contains(ToLower(p.treatmentName), ToLower(f.treatment)))
  }

  /** The prescriptions passing the filters, in their order. */
  function Filtered(vs: seq<PrescriptionView>, f: Filters): seq<PrescriptionView> {
    Filter(vs, (v: PrescriptionView) => Passes(v, f))
  }

  /** In the bitacora view the treatment filter has no effect. */
  lemma {:induction false} TreatmentIgnoredInBitacora(vs: seq<PrescriptionView>, f: Filters)
    requires f.view == BitacoraView
    ensures Filtered(vs, f) == Filtered(vs, f.(treatment := ""))
  {
    if vs != [] {
      TreatmentIgnoredInBitacora(vs[1..], f);
    }
  }

  /** In the list view, a set treatment filter keeps only prescriptions whose treatment contains it, in any case. */
  lemma TreatmentFilterInList(vs: seq<PrescriptionView>, f: Filters)
    requires f.view == ListView && f.treatment != ""
    ensures forall v :: v in Filtered(vs, f) ==>
      Contains(ToLower(v.prescription.treatmentName), ToLower(f.treatment))
  {
    var r := Filtered(vs, f);
    forall v | v in r
      ensures Contains(ToLower(v.prescription.treatmentName), ToLower(f.treatment))
    {
      var i :| 0 <= i < |r| && r[i] == v;
      assert Passes(r[i], f);
    }
  }

  /** `getStatusClass`: the class of the three known statuses, else 'status-default'. */
  function StatusClass(status: string): (r: string)
    ensures status == "active" ==> r == "status-active"
    ensures status == "completed" ==> r == "status-completed"
    ensures status == "cancelled" ==> r == "status-cancelled"
    ensures status !in {"active", "completed", "cancelled"} ==> r == "status-default"
  {
    if status == "active" then "status-active"
    else if status == "completed" then "status-completed"
    else if status == "cancelled" then "status-cancelled"
    else "status-default"
  }

  /** `getStatusText`: the Spanish label of the three known statuses, else the status itself. */
  function StatusText(status: string): (r: string)
    ensures status == "active" ==> r == "Activa"
    ensures status == "completed" ==> r == "Completada"
    ensures status == "cancelled" ==> r == "Cancelada"
    ensures status !in {"active", "completed", "cancelled"} ==> r == status
  {
    if status == "active" then "Activa"
    else if status == "completed" then "Completada"
    else if status == "cancelled" then "Cancelada"
    else status
  }

  /** A child of the signed-in tutor. */
  datatype Child = Child(id: Option<string>, nombre: string, apellidoPaterno: string,
                         fechaNacimiento: string, alergias: string)

  /** `children.find(c => c.id === childId)`, as an index. */
  function FindChild(children: seq<Child>, childId: string): Option<nat> {
    FindFirst(children, (c: Child) => c.id == Some(childId))
  }

  /**
   * `getChildAge`: 0 for an unknown child or an empty birth date; otherwise the
   * whole years from the birth date to today. A birth date that does not read
   * as a calendar day gives no number (None).
   */
  function GetChildAge(children: seq<Child>, childId: string, today: Date): (r: Option<int>)
    ensures FindChild(children, childId).None? ==> r == Some(0)
    ensures FindChild(children, childId).Some? && children[FindChild(children, childId).value].fechaNacimiento == "" ==> r == Some(0)
    ensures FindChild(children, childId).Some? && children[FindChild(children, childId).value].fechaNacimiento != "" ==>
      match ParseDate(children[FindChild(children, childId).value].fechaNacimiento)
      case None => r.None?
      case Some(b) =>
        && r.Some?
        && (r.value == today.year - b.year || r.value == today.year - b.year - 1)
        && (r.value == today.year - b.year - 1 <==>
              today.month < b.month || (today.month == b.month && today.day < b.day))
  {
    match FindChild(children, childId)
    case None => Some(0)
    case Some(k) =>
      if children[k].fechaNacimiento == "" then Some(0)
      else match ParseDate(children[k].fechaNacimiento)
        case None => None
        case Some(b) => Some(AgeOn(b, today))
  }

  /** `prescriptions.find(p => p.id === id)`, as an index. */
  function FindPrescription(vs: seq<PrescriptionView>, id: string): Option<nat> {
    FindFirst(vs, (v: PrescriptionView) => v.prescription.id == Some(id))
  }

  /** A view with its prescription's status replaced. */
  function WithStatus(v: PrescriptionView, status: string): PrescriptionView {
    v.(prescription := v.prescription.(status := status))
  }

  const TreatmentFilters: seq<string> := [
    "Manejo del dolor postoperatorio",
    "Enjuague bucal antis\U{00E9}ptico",
    "Extracci\U{00F3}n de muela del juicio",
    "Tratamiento de ortodoncia",
    "Tratamiento de una infecci\U{00F3}n de",
    "Manejo de sensibilidad dental"
  ]

  class HistorialRecetasComponent {
    var prescriptions: seq<PrescriptionView>
    var filteredPrescriptions: seq<PrescriptionView>
    var currentView: ViewMode
    var selectedPrescription: Option<PrescriptionView>
    var selectedChild: string
    var selectedDoctor: string
    var selectedStatus: string
    var searchTerm: string
    var dateFrom: string
    var dateTo: string
    var selectedTreatmentFilter: string
    var doctors: seq<string>

    function CurrentFilters(): Filters
      reads this
    {
      Filters(selectedChild, selectedDoctor, selectedStatus, searchTerm, dateFrom, dateTo,
              selectedTreatmentFilter, currentView)
    }

    /** The screen opens in the list view with the antiseptic mouthwash treatment filter set. */
    constructor()
      ensures prescriptions == [] && filteredPrescriptions == [] && selectedPrescription.None?
      ensures currentView == ListView && selectedTreatmentFilter == TreatmentFilters[1]
      ensures selectedChild == selectedDoctor == selectedStatus == searchTerm == dateFrom == dateTo == ""
    {
      prescriptions, filteredPrescriptions := [], [];
      currentView := ListView;
      selectedPrescription := None;
      selectedChild, selectedDoctor, selectedStatus := "", "", "";
      searchTerm, dateFrom, dateTo := "", "", "";
      selectedTreatmentFilter := TreatmentFilters[1];
      doctors := [];
    }

    /** `processPrescriptions`: one view per prescription, in order. */
    method ProcessPrescriptions(ps: seq<Prescription>)
      modifies this`prescriptions
      ensures |prescriptions| == |ps|
      ensures forall i :: 0 <= i < |ps| ==> prescriptions[i] == View(ps[i])
    {
      prescriptions := Map(ps, View);
    }

    /** `extractFilterOptions`: the distinct doctors in ascending order. */
    method ExtractFilterOptions()
      modifies this`doctors
      ensures StrictlySorted(doctors)
      ensures forall d :: d in doctors <==> exists i :: 0 <= i < |prescriptions| && prescriptions[i].prescription.doctor == d
    {
      var ds := Map(prescriptions, (v: PrescriptionView) => v.prescription.doctor);
      doctors := SortedDistinct(ds);
      forall d | d in doctors
        ensures exists i :: 0 <= i < |prescriptions| && prescriptions[i].prescription.doctor == d
      {
        var i :| 0 <= i < |ds| && ds[i] == d;
      }
      forall d, i | 0 <= i < |prescriptions| && prescriptions[i].prescription.doctor == d
        ensures d in doctors
      {
        assert ds[i] == d;
      }
    }

    /**
     * `applyFilters`: the prescriptions passing every filter, in their order;
     * with nothing selected, the first of them becomes the selection.
     */
    method ApplyFilters()
      modifies this`filteredPrescriptions, this`selectedPrescription
      ensures filteredPrescriptions == Filtered(prescriptions, CurrentFilters())
      ensures IsSubsequence(filteredPrescriptions, prescriptions)
      ensures old(selectedPrescription).Some? ==> selectedPrescription == old(selectedPrescription)
      ensures old(selectedPrescription).None? ==>
        selectedPrescription == (if filteredPrescriptions == [] then None else Some(filteredPrescriptions[0]))
    {
      var f := CurrentFilters();
      filteredPrescriptions := Filtered(prescriptions, f);
      FilterIsSubsequence(prescriptions, (v: PrescriptionView) => Passes(v, f));
      if |filteredPrescriptions| > 0 && selectedPrescription.None? {
        selectedPrescription := Some(filteredPrescriptions[0]);
      }
    }

    /** `onTreatmentFilterChange`. */
    method OnTreatmentFilterChange(treatment: string)
      modifies this`selectedTreatmentFilter, this`filteredPrescriptions, this`selectedPrescription
      ensures selectedTreatmentFilter == treatment
      ensures filteredPrescriptions == Filtered(prescriptions, CurrentFilters())
      ensures currentView == ListView && treatment != "" ==>
        forall v :: v in filteredPrescriptions ==>
          Contains(ToLower(v.prescription.treatmentName), ToLower(treatment))
      ensures old(selectedPrescription).Some? ==> selectedPrescription == old(selectedPrescription)
      ensures old(selectedPrescription).None? ==>
        selectedPrescription == (if filteredPrescriptions == [] then None else Some(filteredPrescriptions[0]))
    {
      selectedTreatmentFilter := treatment;
      ApplyFilters();
      if currentView == ListView && treatment != "" {
        TreatmentFilterInList(prescriptions, CurrentFilters());
      }
    }

    /** `clearFilters`: every filter off, the treatment filter included, so every prescription is listed. */
    method ClearFilters()
      modifies this`selectedChild, this`selectedDoctor, this`selectedStatus, this`searchTerm,
               this`dateFrom, this`dateTo, this`selectedTreatmentFilter,
               this`filteredPrescriptions, this`selectedPrescription
      ensures selectedChild == selectedDoctor == selectedStatus == searchTerm == dateFrom == dateTo == ""
      ensures selectedTreatmentFilter == ""
      ensures filteredPrescriptions == prescriptions
      ensures old(selectedPrescription).Some? ==> selectedPrescription == old(selectedPrescription)
      ensures old(selectedPrescription).None? ==>
        selectedPrescription == (if prescriptions == [] then None else Some(prescriptions[0]))
    {
      selectedChild, selectedDoctor, selectedStatus := "", "", "";
      searchTerm, dateFrom, dateTo := "", "", "";
      selectedTreatmentFilter := "";
      ApplyFilters();
      var f := CurrentFilters();
      FilterAll(prescriptions, (v: PrescriptionView) => Passes(v, f));
    }

    /** `switchView`: entering the bitacora view with nothing selected selects the first listed prescription. */
    method SwitchView(view: ViewMode)
      modifies this`currentView, this`selectedPrescription
      ensures currentView == view
      ensures view == BitacoraView && old(selectedPrescription).None? && filteredPrescriptions != [] ==>
        selectedPrescription == Some(filteredPrescriptions[0])
      ensures !(view == BitacoraView && old(selectedPrescription).None? && filteredPrescriptions != []) ==>
        selectedPrescription == old(selectedPrescription)
    {
      currentView := view;
      if view == BitacoraView && |filteredPrescriptions| > 0 && selectedPrescription.None? {
        selectedPrescription := Some(filteredPrescriptions[0]);
      }
    }

    /** `selectPrescription`: the prescription becomes the selection, shown in the bitacora view. */
    method SelectPrescription(p: PrescriptionView)
      modifies this`selectedPrescription, this`currentView
      ensures selectedPrescription == Some(p)
      ensures currentView == BitacoraView
    {
      selectedPrescription := Some(p);
      if currentView == ListView {
        currentView := BitacoraView;
      }
    }

    /**
     * `updatePrescriptionStatus`: once the store accepted the change, the
     * first prescription with that id and the selection, if it has that id,
     * take the new status, and the filters run again. When the store refuses,
     * nothing changes.
     */
    method UpdatePrescriptionStatus(prescriptionId: string, status: string, storeOk: bool)
      modifies this`prescriptions, this`selectedPrescription, this`filteredPrescriptions
      ensures !storeOk ==> prescriptions == old(prescriptions) && selectedPrescription == old(selectedPrescription)
                           && filteredPrescriptions == old(filteredPrescriptions)
      ensures |prescriptions| == |old(prescriptions)|
      ensures storeOk ==>
        match FindPrescription(old(prescriptions), prescriptionId)
        case None => prescriptions == old(prescriptions)
        case Some(k) =>
          && prescriptions[k] == WithStatus(old(prescriptions)[k], status)
          && forall j :: 0 <= j < |prescriptions| && j != k ==> prescriptions[j] == old(prescriptions)[j]
      ensures storeOk && old(selectedPrescription).Some? && old(selectedPrescription).value.prescription.id == Some(prescriptionId) ==>
        selectedPrescription == Some(WithStatus(old(selectedPrescription).value, status))
      ensures storeOk && old(selectedPrescription).Some? && old(selectedPrescription).value.prescription.id != Some(prescriptionId) ==>
        selectedPrescription == old(selectedPrescription)
      ensures storeOk && old(selectedPrescription).None? ==>
        selectedPrescription == (if filteredPrescriptions == [] then None else Some(filteredPrescriptions[0]))
      ensures storeOk ==> filteredPrescriptions == Filtered(prescriptions, CurrentFilters())
    {
      if !storeOk {
        return;
      }
      match FindPrescription(prescriptions, prescriptionId) {
        case Some(k) =>
          prescriptions := prescriptions[k := WithStatus(prescriptions[k], status)];
        case None =>
      }
      if selectedPrescription.Some? && selectedPrescription.value.prescription.id == Some(prescriptionId) {
        selectedPrescription := Some(WithStatus(selectedPrescription.value, status));
      }
      ApplyFilters();
    }
  }
}
