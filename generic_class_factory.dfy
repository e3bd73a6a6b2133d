/** The class factory `Run(Type, Type)` registers for a COM class: it refuses
    aggregation, looks up the class's ClassId and builds one instance for the
    ClassId, IDispatch or IUnknown interface ids, and no interface otherwise. */
module ClassFactory {
  import opened ComTypes
  import opened ClassIdAttribute
  import opened OutOfProcCom
  import opened ReferenceCounting

  /** The value written to `ppvObject`: `IntPtr.Zero`, or the COM interface of a new object. */
  datatype InterfacePointer = NullPointer | ComInterface(target: ReferenceCountedObject, iface: string)

  /** What a `CreateInstance` request leads to. */
  datatype Activation = Construct | Reject(error: Exception)

  /** The interface ids an instance is handed out for. */
  predicate IsAcceptedIid(riid: Guid, classIdGuid: Guid) {
    riid == classIdGuid || riid == IID_IDispatch || riid == IID_IUnknown
  }

  /** The decision `CreateInstance` takes, with its own copy of the ClassId search;
      `pUnkOuter` is the outer unknown's address (0 is `IntPtr.Zero`) and `parseGuid`
      stands for `new Guid(string)`. Aggregation is refused before the ClassId is looked
      up, a missing ClassId is reported before the interface id is examined, and the
      ClassId found is the one `GetClassIdValue` returns. */
  function ActivationFor(pUnkOuter: nat, riid: Guid, comType: TypeDescriptor,
                         parseGuid: string -> Guid): (a: Activation)
    ensures pUnkOuter != 0 ==> a == Reject(ComException(CLASS_E_NOAGGREGATION))
    ensures pUnkOuter == 0 ==>
              (a == Reject(NotImplemented(comType.name)) <==> GetClassIdValue(comType).Err?)
    ensures a == Construct <==>
              && pUnkOuter == 0
              && GetClassIdValue(comType).Ok?
              && IsAcceptedIid(riid, parseGuid(GetClassIdValue(comType).value))
    ensures a == Reject(ComException(E_NOINTERFACE)) <==>
              && pUnkOuter == 0
              && GetClassIdValue(comType).Ok?
              && !IsAcceptedIid(riid, parseGuid(GetClassIdValue(comType).value))
  {
    if pUnkOuter != 0 then Reject(ComException(CLASS_E_NOAGGREGATION))
    else
      match FirstOrDefault(FindMembers(comType.members))
      case None => Reject(NotImplemented(comType.name))
      case Some(clsIdField) =>
        if IsAcceptedIid(riid, parseGuid(clsIdField.staticValue)) then Construct
        else Reject(ComException(E_NOINTERFACE))
  }

  class GenericClassFactory {
    /** The `comType` type argument: the class to instantiate. */
    const comType: TypeDescriptor
    /** The `interfaceType` type argument: the interface handed out. */
    const comInterface: string
    const server: OutOfProcServer

    constructor (comType: TypeDescriptor, comInterface: string, server: OutOfProcServer)
      ensures this.comType == comType && this.comInterface == comInterface
      ensures this.server == server
    {
      this.comType := comType;
      this.comInterface := comInterface;
      this.server := server;
    }

    /** Builds exactly one new object, locking the server once, when `ActivationFor`
        says so; on every failure `ppvObject` is `IntPtr.Zero`, nothing is built and the
        server is unchanged. */
    method CreateInstance(pUnkOuter: nat, riid: Guid)
      returns (hr: Result<Int32, Exception>, ppvObject: InterfacePointer)
      requires server.Valid()
      modifies server`lockCnt, server`counterOps
      ensures server.Valid()
      ensures var a := ActivationFor(pUnkOuter, riid, comType, server.parseGuid);
              && (a == Construct ==>
                    && hr == Ok(0)
                    && ppvObject.ComInterface? && ppvObject.iface == comInterface
                    && fresh(ppvObject.target) && ppvObject.target.server == server
                    && !ppvObject.target.finalized
                    && server.lockCnt == Increment(old(server.lockCnt))
                    && server.counterOps == old(server.counterOps) + [LockOp])
              && (a.Reject? ==>
                    && hr == Err(a.error)
                    && ppvObject == NullPointer
                    && unchanged(server))
    {
      ppvObject := NullPointer;
      if pUnkOuter != 0 {
        return Err(ComException(CLASS_E_NOAGGREGATION)), ppvObject;
      }
      var clsIdField := FirstOrDefault(FindMembers(comType.members));
      if clsIdField.None? {
        return Err(NotImplemented(comType.name)), ppvObject;
      }
      var clsId := clsIdField.value.staticValue;
      if IsAcceptedIid(riid, server.parseGuid(clsId)) {
        var comInstance := new ReferenceCountedObject(server);
        ppvObject := ComInterface(comInstance, comInterface);
      } else {
        return Err(ComException(E_NOINTERFACE)), ppvObject;
      }
      hr := Ok(0);
    }

    /** Explicit server locking is not implemented: always S_OK, nothing changes. */
    method LockServer(fLock: bool) returns (hr: Int32)
      ensures hr == 0
    {
      hr := 0;
    }
  }

  /** The sample COM class: a static `[ClassId]` field and a plain static field. */
  const SampleClassIdText: string := "326BCC35-E0AA-4C8F-AA3E-AB0978EF6E70"
  const SampleClassIdGuid: Guid := 0x326B_CC35_E0AA_4C8F_AA3E_AB09_78EF_6E70
  const SampleInterfaceIdGuid: Guid := 0x5577_DD6F_B4E0_45EE_A272_9635_4915_BB9C
  const SampleOopCom: TypeDescriptor := TypeDescriptor("SampleOopCom", [
    MemberInfo("ClassId", Field, true, false, [ClassIdAttr], SampleClassIdText),
    MemberInfo("InterfaceId", Field, true, false, [], "5577DD6F-B4E0-45EE-A272-96354915BB9C")])

  /** `new Guid(string)` on the two GUID strings of the sample. */
  function SampleParse(s: string): (g: Guid) {
    if s == SampleClassIdText then SampleClassIdGuid else SampleInterfaceIdGuid
  }

  lemma SampleActivations()
    ensures ActivationFor(0, IID_IUnknown, SampleOopCom, SampleParse) == Construct
    ensures ActivationFor(0, SampleInterfaceIdGuid, SampleOopCom, SampleParse) ==
            Reject(ComException(E_NOINTERFACE))
  {
  }

  /** A client of the factory for the sample COM class: one object handed out for
      IUnknown, requests for the business interface id and for aggregation refused
      while that object lives, and the release of the object bringing the count back
      to 0 and posting `WM_QUIT`. */
  method ActivationScenario(server: OutOfProcServer)
    returns (obj: ReferenceCountedObject, accepted: Result<Int32, Exception>,
             wrongIid: Result<Int32, Exception>, aggregated: Result<Int32, Exception>,
             countWhileLive: Int32)
    requires server.Valid() && server.lockCnt == 0 && server.parseGuid == SampleParse
    modifies server`lockCnt, server`counterOps, server`quitPosts, server`queue
    ensures accepted == Ok(0)
    ensures wrongIid == Err(ComException(E_NOINTERFACE))
    ensures aggregated == Err(ComException(CLASS_E_NOAGGREGATION))
    ensures countWhileLive == 1
    ensures server.lockCnt == 0
    ensures server.quitPosts == old(server.quitPosts) + [server.mainThreadId]
    ensures server.queue == old(server.queue) + (if server.mainThreadId != 0 then [WmQuit] else [])
  {
    SampleActivations();
    var factory := new GenericClassFactory(SampleOopCom, "ISampleOopCom", server);

    var ppv;
    accepted, ppv := factory.CreateInstance(0, IID_IUnknown);
    obj := ppv.target;
    wrongIid, ppv := factory.CreateInstance(0, SampleInterfaceIdGuid);
    aggregated, ppv := factory.CreateInstance(1, IID_IUnknown);
    countWhileLive := server.GetLockCount();
    obj.Finalize();
  }
}
