/** The designation select of the user-management screen: its 40 items in display order, the
    value each item stands for, and the reading of a select value back as a designation. */
module Designations {
  import opened Wrappers

  datatype Designation =
    | BoardOfDirector | ExecutiveDirector | OperationsDirector | CharteredAccountant | Auditor
    | TechnicalConsultant | Advisor | CountryOfficer | SeniorProgramManager | SeniorManager
    | SeniorOfficer | Manager | Officer | Associate | Executive | Intern | WebDeveloper
    | Assistant | DataEntryOperator | Receptionist | EventOrganizer | DevelopmentDoer
    | OfficeAttendant | Driver | Guard | Vendor | DailyServiceProvider | StateProgramManager
    | StateCoordinator | StateOfficer | RegionalProgramManager | RegionalCoordinator
    | RegionalOfficer | DistrictProgramManager | DistrictCoordinator | DistrictExecutive
    | Counsellor | ClusterCoordinator | Volunteer | FieldCoordinator

  /** The value of the designation select's item for `x`. */
  function DesignationValue(x: Designation): string {
    match x
    case BoardOfDirector => "board-of-director"
    case ExecutiveDirector => "executive-director"
    case OperationsDirector => "operations-director"
    case CharteredAccountant => "chartered-accountant"
    case Auditor => "auditor"
    case TechnicalConsultant => "technical-consultant"
    case Advisor => "advisor"
    case CountryOfficer => "country-officer"
    case SeniorProgramManager => "senior-program-manager"
    case SeniorManager => "senior-manager"
    case SeniorOfficer => "senior-officer"
    case Manager => "manager"
    case Officer => "officer"
    case Associate => "associate"
    case Executive => "executive"
    case Intern => "intern"
    case WebDeveloper => "web-developer"
    case Assistant => "assistant"
    case DataEntryOperator => "data-entry-operator"
    case Receptionist => "receptionist"
    case EventOrganizer => "event-organizer"
    case DevelopmentDoer => "development-doer"
    case OfficeAttendant => "office-attendant"
    case Driver => "driver"
    case Guard => "guard"
    case Vendor => "vendor"
    case DailyServiceProvider => "daily-service-provider"
    case StateProgramManager => "state-program-manager"
    case StateCoordinator => "state-coordinator"
    case StateOfficer => "state-officer"
    case RegionalProgramManager => "regional-program-manager"
    case RegionalCoordinator => "regional-coordinator"
    case RegionalOfficer => "regional-officer"
    case DistrictProgramManager => "district-program-manager"
    case DistrictCoordinator => "district-coordinator"
    case DistrictExecutive => "district-executive"
    case Counsellor => "counsellor"
    case ClusterCoordinator => "cluster-coordinator"
    case Volunteer => "volunteer"
    case FieldCoordinator => "field-coordinator"
  }

  /** The item at position `i` of the designation select, in display order. */
  function DesignationAt(i: nat): Designation
    requires i < 40
  {
    match i
    case 0 => BoardOfDirector
    case 1 => ExecutiveDirector
    case 2 => OperationsDirector
    case 3 => CharteredAccountant
    case 4 => Auditor
    case 5 => TechnicalConsultant
    case 6 => Advisor
    case 7 => CountryOfficer
    case 8 => SeniorProgramManager
    case 9 => SeniorManager
    case 10 => SeniorOfficer
    case 11 => Manager
    case 12 => Officer
    case 13 => Associate
    case 14 => Executive
    case 15 => Intern
    case 16 => WebDeveloper
    case 17 => Assistant
    case 18 => DataEntryOperator
    case 19 => Receptionist
    case 20 => EventOrganizer
    case 21 => DevelopmentDoer
    case 22 => OfficeAttendant
    case 23 => Driver
    case 24 => Guard
    case 25 => Vendor
    case 26 => DailyServiceProvider
    case 27 => StateProgramManager
    case 28 => StateCoordinator
    case 29 => StateOfficer
    case 30 => RegionalProgramManager
    case 31 => RegionalCoordinator
    case 32 => RegionalOfficer
    case 33 => DistrictProgramManager
    case 34 => DistrictCoordinator
    case 35 => DistrictExecutive
    case 36 => Counsellor
    case 37 => ClusterCoordinator
    case 38 => Volunteer
    case _ => FieldCoordinator
  }

  /** The position of `x` in the designation select. */
  function DesignationIndex(x: Designation): (i: nat)
    ensures i < 40 && DesignationAt(i) == x
  {
    match x
    case BoardOfDirector => 0
    case ExecutiveDirector => 1
    case OperationsDirector => 2
    case CharteredAccountant => 3
    case Auditor => 4
    case TechnicalConsultant => 5
    case Advisor => 6
    case CountryOfficer => 7
    case SeniorProgramManager => 8
    case SeniorManager => 9
    case SeniorOfficer => 10
    case Manager => 11
    case Officer => 12
    case Associate => 13
    case Executive => 14
    case Intern => 15
    case WebDeveloper => 16
    case Assistant => 17
    case DataEntryOperator => 18
    case Receptionist => 19
    case EventOrganizer => 20
    case DevelopmentDoer => 21
    case OfficeAttendant => 22
    case Driver => 23
    case Guard => 24
    case Vendor => 25
    case DailyServiceProvider => 26
    case StateProgramManager => 27
    case StateCoordinator => 28
    case StateOfficer => 29
    case RegionalProgramManager => 30
    case RegionalCoordinator => 31
    case RegionalOfficer => 32
    case DistrictProgramManager => 33
    case DistrictCoordinator => 34
    case DistrictExecutive => 35
    case Counsellor => 36
    case ClusterCoordinator => 37
    case Volunteer => 38
    case FieldCoordinator => 39
  }

  /** Positions and items correspond one to one. */
  lemma DesignationIndexAt(i: nat)
    requires i < 40
    ensures DesignationIndex(DesignationAt(i)) == i
  {
  }

  /** The designation select's items, in display order. */
  const DESIGNATION_OPTIONS: seq<Designation> := seq(40, i requires 0 <= i < 40 => DesignationAt(i))

  /** The designation whose select value is `value`, if any. The length, then the first
      character, narrow the candidates whose values are compared. */
  function ParseDesignation(value: string): (r: Option<Designation>)
    ensures r.Some? ==> DesignationValue(r.value) == value
  {
    match |value|
    case 5 =>
      if value == DesignationValue(Guard) then Some(Guard) else None
    case 6 =>
      (match value[0]
      case 'i' =>
        if value == DesignationValue(Intern) then Some(Intern) else
        None
      case 'd' =>
        if value == DesignationValue(Driver) then Some(Driver) else
        None
      case 'v' =>
        if value == DesignationValue(Vendor) then Some(Vendor) else
        None
      case _ => None)
    case 7 =>
      (match value[0]
      case 'a' =>
        if value == DesignationValue(Auditor) then Some(Auditor) else
        if value == DesignationValue(Advisor) then Some(Advisor) else
        None
      case 'm' =>
        if value == DesignationValue(Manager) then Some(Manager) else
        None
      case 'o' =>
        if value == DesignationValue(Officer) then Some(Officer) else
        None
      case _ => None)
    case 9 =>
      (match value[0]
      case 'a' =>
        if value == DesignationValue(Associate) then Some(Associate) else
        if value == DesignationValue(Assistant) then Some(Assistant) else
        None
      case 'e' =>
        if value == DesignationValue(Executive) then Some(Executive) else
        None
      case 'v' =>
        if value == DesignationValue(Volunteer) then Some(Volunteer) else
        None
      case _ => None)
    case 10 =>
      if value == DesignationValue(Counsellor) then Some(Counsellor) else None
    case 12 =>
      if value == DesignationValue(Receptionist) then Some(Receptionist) else None
    case 13 =>
      (match value[0]
      case 'w' =>
        if value == DesignationValue(WebDeveloper) then Some(WebDeveloper) else
        None
      case 's' =>
        if value == DesignationValue(StateOfficer) then Some(StateOfficer) else
        None
      case _ => None)
    case 14 =>
      (match value[0]
      case 's' =>
        if value == DesignationValue(SeniorManager) then Some(SeniorManager) else
        if value == DesignationValue(SeniorOfficer) then Some(SeniorOfficer) else
        None
      case _ => None)
    case 15 =>
      (match value[0]
      case 'c' =>
        if value == DesignationValue(CountryOfficer) then Some(CountryOfficer) else
        None
      case 'e' =>
        if value == DesignationValue(EventOrganizer) then Some(EventOrganizer) else
        None
      case _ => None)
    case 16 =>
      (match value[0]
      case 'd' =>
        if value == DesignationValue(DevelopmentDoer) then Some(DevelopmentDoer) else
        None
      case 'o' =>
        if value == DesignationValue(OfficeAttendant) then Some(OfficeAttendant) else
        None
      case 'r' =>
        if value == DesignationValue(RegionalOfficer) then Some(RegionalOfficer) else
        None
      case _ => None)
    case 17 =>
      (match value[0]
      case 'b' =>
        if value == DesignationValue(BoardOfDirector) then Some(BoardOfDirector) else
        None
      case 's' =>
        if value == DesignationValue(StateCoordinator) then Some(StateCoordinator) else
        None
      case 'f' =>
        if value == DesignationValue(FieldCoordinator) then Some(FieldCoordinator) else
        None
      case _ => None)
    case 18 =>
      (match value[0]
      case 'e' =>
        if value == DesignationValue(ExecutiveDirector) then Some(ExecutiveDirector) else
        None
      case 'd' =>
        if value == DesignationValue(DistrictExecutive) then Some(DistrictExecutive) else
        None
      case _ => None)
    case 19 =>
      (match value[0]
      case 'o' =>
        if value == DesignationValue(OperationsDirector) then Some(OperationsDirector) else
        None
      case 'd' =>
        if value == DesignationValue(DataEntryOperator) then Some(DataEntryOperator) else
        None
      case 'c' =>
        if value == DesignationValue(ClusterCoordinator) then Some(ClusterCoordinator) else
        None
      case _ => None)
    case 20 =>
      (match value[0]
      case 'c' =>
        if value == DesignationValue(CharteredAccountant) then Some(CharteredAccountant) else
        None
      case 't' =>
        if value == DesignationValue(TechnicalConsultant) then Some(TechnicalConsultant) else
        None
      case 'r' =>
        if value == DesignationValue(RegionalCoordinator) then Some(RegionalCoordinator) else
        None
      case 'd' =>
        if value == DesignationValue(DistrictCoordinator) then Some(DistrictCoordinator) else
        None
      case _ => None)
    case 21 =>
      if value == DesignationValue(StateProgramManager) then Some(StateProgramManager) else None
    case 22 =>
      (match value[0]
      case 's' =>
        if value == DesignationValue(SeniorProgramManager) then Some(SeniorProgramManager) else
        None
      case 'd' =>
        if value == DesignationValue(DailyServiceProvider) then Some(DailyServiceProvider) else
        None
      case _ => None)
    case 24 =>
      (match value[0]
      case 'r' =>
        if value == DesignationValue(RegionalProgramManager) then Some(RegionalProgramManager) else
        None
      case 'd' =>
        if value == DesignationValue(DistrictProgramManager) then Some(DistrictProgramManager) else
        None
      case _ => None)
    case _ => None
  }

  /** Every designation value reads back as that designation. The proof goes through the
      select's items five at a time. */
  lemma ParseDesignationValue(x: Designation)
    ensures ParseDesignation(DesignationValue(x)) == Some(x)
  {
    if DesignationIndex(x) < 5 {
      ParseDesignationValueGroup1(x);
    } else if DesignationIndex(x) < 10 {
      ParseDesignationValueGroup2(x);
    } else if DesignationIndex(x) < 15 {
      ParseDesignationValueGroup3(x);
    } else if DesignationIndex(x) < 20 {
      ParseDesignationValueGroup4(x);
    } else if DesignationIndex(x) < 25 {
      ParseDesignationValueGroup5(x);
    } else if DesignationIndex(x) < 30 {
      ParseDesignationValueGroup6(x);
    } else if DesignationIndex(x) < 35 {
      ParseDesignationValueGroup7(x);
    } else {
      ParseDesignationValueGroup8(x);
    }
  }

  /** `ParseDesignationValue` for the items at positions 0 to 4. */
  lemma ParseDesignationValueGroup1(x: Designation)
    requires DesignationIndex(x) < 5
    ensures ParseDesignation(DesignationValue(x)) == Some(x)
  {
  }

  /** `ParseDesignationValue` for the items at positions 5 to 9. */
  lemma ParseDesignationValueGroup2(x: Designation)
    requires 5 <= DesignationIndex(x) < 10
    ensures ParseDesignation(DesignationValue(x)) == Some(x)
  {
  }

  /** `ParseDesignationValue` for the items at positions 10 to 14. */
  lemma ParseDesignationValueGroup3(x: Designation)
    requires 10 <= DesignationIndex(x) < 15
    ensures ParseDesignation(DesignationValue(x)) == Some(x)
  {
  }

  /** `ParseDesignationValue` for the items at positions 15 to 19. */
  lemma ParseDesignationValueGroup4(x: Designation)
    requires 15 <= DesignationIndex(x) < 20
    ensures ParseDesignation(DesignationValue(x)) == Some(x)
  {
  }

  /** `ParseDesignationValue` for the items at positions 20 to 24. */
  lemma ParseDesignationValueGroup5(x: Designation)
    requires 20 <= DesignationIndex(x) < 25
    ensures ParseDesignation(DesignationValue(x)) == Some(x)
  {
  }

  /** `ParseDesignationValue` for the items at positions 25 to 29. */
  lemma ParseDesignationValueGroup6(x: Designation)
    requires 25 <= DesignationIndex(x) < 30
    ensures ParseDesignation(DesignationValue(x)) == Some(x)
  {
  }

  /** `ParseDesignationValue` for the items at positions 30 to 34. */
  lemma ParseDesignationValueGroup7(x: Designation)
    requires 30 <= DesignationIndex(x) < 35
    ensures ParseDesignation(DesignationValue(x)) == Some(x)
  {
  }

  /** `ParseDesignationValue` for the items at positions 35 to 39. */
  lemma ParseDesignationValueGroup8(x: Designation)
    requires 35 <= DesignationIndex(x) < 40
    ensures ParseDesignation(DesignationValue(x)) == Some(x)
  {
  }

  /** The designation select offers 40 items and every designation once, so values identify
      designations. */
  lemma DesignationOptionsComplete(x: Designation)
    ensures |DESIGNATION_OPTIONS| == 40
    ensures x in DESIGNATION_OPTIONS
    ensures forall i, j :: 0 <= i < j < |DESIGNATION_OPTIONS| ==>
      DesignationValue(DESIGNATION_OPTIONS[i]) != DesignationValue(DESIGNATION_OPTIONS[j])
  {
    assert DESIGNATION_OPTIONS[DesignationIndex(x)] == x;
    forall i, j | 0 <= i < j < |DESIGNATION_OPTIONS|
      ensures DesignationValue(DESIGNATION_OPTIONS[i]) != DesignationValue(DESIGNATION_OPTIONS[j])
    {
      DesignationIndexAt(i);
      DesignationIndexAt(j);
      ParseDesignationValue(DESIGNATION_OPTIONS[i]);
      ParseDesignationValue(DESIGNATION_OPTIONS[j]);
    }
  }

  /** The designation select's current value: the stored designation's value, or the empty
      string (no item selected) when the user has none. */
  function DesignationSelectValue(d: Option<Designation>): (value: string)
    ensures value == "" <==> d.None?
  {
    if d.Some? then DesignationValue(d.value) else ""
  }
}
