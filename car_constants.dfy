/**
 * The constants of the car table: the page size, the simulated latency and
 * the lists of allowed values for the three enumerated fields.
 */
module CarConstants {
  import opened CarTypes

  /** Records requested per page of the car table. */
  const Limit: nat := 20

  /** Simulated network latency in milliseconds; it only delays, it changes no state. */
  const Delay: nat := 1500

  const EngineTypeArray: seq<string> := ["Бензиновый", "Газовый", "Дизельный", "Электрический"]

  const TransmissionTypeArray: seq<string> := ["Механическая", "Автоматическая"]

  const DriveTypeArray: seq<string> := ["Полный привод", "Задний привод", "Передний привод"]

  predicate Distinct<T(==)>(s: seq<T>) {
    forall i, j :: 0 <= i < j < |s| ==> s[i] != s[j]
  }

  /**
   * The engine list holds exactly the labels of the four engine kinds, each
   * once: a string is in the list iff it is the label of an engine kind.
   */
  lemma EngineTypeArrayIsTheEnumeration()
    ensures |EngineTypeArray| == 4 && Distinct(EngineTypeArray)
    ensures forall e: EngineType :: e.Label() in EngineTypeArray
    ensures forall s :: s in EngineTypeArray ==> exists e: EngineType :: e.Label() == s
  {
    assert EngineTypeArray[0] == Gasoline.Label();
    assert EngineTypeArray[1] == Gas.Label();
    assert EngineTypeArray[2] == Diesel.Label();
    assert EngineTypeArray[3] == Electric.Label();
  }

  /** The transmission list holds exactly the labels of the two transmission kinds. */
  lemma TransmissionTypeArrayIsTheEnumeration()
    ensures |TransmissionTypeArray| == 2 && Distinct(TransmissionTypeArray)
    ensures forall t: TransmissionType :: t.Label() in TransmissionTypeArray
    ensures forall s :: s in TransmissionTypeArray ==> exists t: TransmissionType :: t.Label() == s
  {
    assert TransmissionTypeArray[0] == Manual.Label();
    assert TransmissionTypeArray[1] == Automatic.Label();
  }

  /** The drive list holds exactly the labels of the three drive kinds. */
  lemma DriveTypeArrayIsTheEnumeration()
    ensures |DriveTypeArray| == 3 && Distinct(DriveTypeArray)
    ensures forall t: DriveType :: t.Label() in DriveTypeArray
    ensures forall s :: s in DriveTypeArray ==> exists t: DriveType :: t.Label() == s
  {
    assert DriveTypeArray[0] == AllWheel.Label();
    assert DriveTypeArray[1] == RearWheel.Label();
    assert DriveTypeArray[2] == FrontWheel.Label();
  }

  /** Distinct kinds have distinct labels, so a label names one kind. */
  lemma LabelsAreInjective()
    ensures forall a: EngineType, b: EngineType :: a.Label() == b.Label() ==> a == b
    ensures forall a: TransmissionType, b: TransmissionType :: a.Label() == b.Label() ==> a == b
    ensures forall a: DriveType, b: DriveType :: a.Label() == b.Label() ==> a == b
  {
    EngineTypeArrayIsTheEnumeration();
    TransmissionTypeArrayIsTheEnumeration();
    DriveTypeArrayIsTheEnumeration();
  }
}
