/**
 * The toast notifications of the widget's UI kit: a provider that holds the
 * list of visible toasts, appends one per call of `toast()`, and later removes
 * every toast carrying that call's id; the colours a toast is drawn with; and
 * the hook that finds the provider.
 */
module Toasts {
  import opened Wrappers

  datatype Variant = Default | Destructive | Success

  /** What a caller passes to `toast()`; an absent variant means Default. */
  datatype ToastProps = ToastProps(variant: Option<Variant>, title: string, description: Option<string>)

  /** A toast on screen: the caller's props with the id drawn for it. */
  datatype ToastRecord = ToastRecord(id: string, variant: Variant, title: string, description: Option<string>)

  /** The record `toast()` appends for these props and this id. */
  function MakeRecord(props: ToastProps, id: string): (t: ToastRecord)
    ensures t.id == id && t.title == props.title && t.description == props.description
    ensures props.variant == None ==> t.variant == Default
    ensures props.variant.Some? ==> t.variant == props.variant.value
  {
    ToastRecord(id, props.variant.GetOr(Default), props.title, props.description)
  }

  /** toasts.filter(t => t.id !== id) */
  function RemoveById(ts: seq<ToastRecord>, id: string): (r: seq<ToastRecord>)
    ensures |r| <= |ts|
    ensures forall i :: 0 <= i < |r| ==> r[i].id != id
  {
    if ts == [] then []
    else if ts[|ts| - 1].id == id then RemoveById(ts[..|ts| - 1], id)
    else RemoveById(ts[..|ts| - 1], id) + [ts[|ts| - 1]]
  }

  /** What survives removal: exactly the records of the list whose id differs. */
  lemma {:induction false} RemoveByIdMembers(ts: seq<ToastRecord>, id: string, t: ToastRecord)
    ensures t in RemoveById(ts, id) <==> t in ts && t.id != id
  {
    if ts != [] {
      RemoveByIdMembers(ts[..|ts| - 1], id, t);
      assert ts == ts[..|ts| - 1] + [ts[|ts| - 1]];
    }
  }

  /** Removal keeps the relative order: it works part by part on a concatenation. */
  lemma {:induction false} RemoveByIdConcat(a: seq<ToastRecord>, b: seq<ToastRecord>, id: string)
    ensures RemoveById(a + b, id) == RemoveById(a, id) + RemoveById(b, id)
    decreases |b|
  {
    if b == [] {
      assert a + b == a;
    } else {
      var ab, init, last := a + b, b[..|b| - 1], b[|b| - 1];
      RemoveByIdConcat(a, init, id);
      assert ab[..|ab| - 1] == a + init && ab[|ab| - 1] == last;
      if last.id == id {
        calc {
          RemoveById(ab, id);
          RemoveById(a + init, id);
          RemoveById(a, id) + RemoveById(init, id);
          RemoveById(a, id) + RemoveById(b, id);
        }
      } else {
        calc {
          RemoveById(ab, id);
          RemoveById(a + init, id) + [last];
          RemoveById(a, id) + RemoveById(init, id) + [last];
          RemoveById(a, id) + RemoveById(b, id);
        }
      }
    }
  }

  /** A list in which no toast has the id is left as it is. */
  lemma {:induction false} RemoveAbsent(ts: seq<ToastRecord>, id: string)
    requires forall i :: 0 <= i < |ts| ==> ts[i].id != id
    ensures RemoveById(ts, id) == ts
  {
    if ts != [] {
      RemoveAbsent(ts[..|ts| - 1], id);
    }
  }

  /** Removing the same id a second time changes nothing. */
  lemma RemoveByIdIdempotent(ts: seq<ToastRecord>, id: string)
    ensures RemoveById(RemoveById(ts, id), id) == RemoveById(ts, id)
  {
    RemoveAbsent(RemoveById(ts, id), id);
  }

  /** The timer of a toast whose id is new takes away exactly the toast it belongs to. */
  lemma ToastThenExpire(ts: seq<ToastRecord>, props: ToastProps, id: string)
    requires forall i :: 0 <= i < |ts| ==> ts[i].id != id
    ensures RemoveById(ts + [MakeRecord(props, id)], id) == ts
  {
    RemoveAbsent(ts, id);
    RemoveByIdConcat(ts, [MakeRecord(props, id)], id);
  }

  /** Background colour: red for Destructive, green for Success, light grey otherwise. */
  function BackgroundColor(v: Variant): (c: string)
    ensures c == "#f87171" <==> v == Destructive
    ensures c == "#4ade80" <==> v == Success
    ensures c == "#f3f4f6" <==> v == Default
  {
    assert "#f87171"[2] != "#f3f4f6"[2] && "#4ade80"[1] != "#f3f4f6"[1] && "#f87171"[1] != "#4ade80"[1];
    match v
    case Destructive => "#f87171"
    case Success => "#4ade80"
    case Default => "#f3f4f6"
  }

  /** Text colour: dark for Default, white for every other variant. */
  function TextColor(v: Variant): (c: string)
    ensures c == "#1f2937" <==> v == Default
    ensures c == "#ffffff" <==> v != Default
  {
    if v == Default then "#1f2937" else "#ffffff"
  }

  /** The state of ToastProvider: the toasts on screen, oldest first. */
  class ToastProvider {
    var toasts: seq<ToastRecord>

    constructor ()
      ensures toasts == []
    {
      toasts := [];
    }

    /** toast(props), with the random id as a parameter: one record appended at the end. */
    method Toast(props: ToastProps, id: string)
      modifies this
      ensures toasts == old(toasts) + [MakeRecord(props, id)]
    {
      toasts := toasts + [MakeRecord(props, id)];
    }

    /** The timer that toast() starts, firing: every record with that id goes. */
    method Expire(id: string)
      modifies this
      ensures toasts == RemoveById(old(toasts), id)
    {
      toasts := RemoveById(toasts, id);
    }
  }

  /** useToast: the provider in scope, or the error it throws when there is none. */
  function UseToast(context: Option<ToastProvider>): (r: Result<ToastProvider, string>)
    ensures r.Err? <==> context == None
    ensures r.Err? ==> r.error == "useToast must be used within a ToastProvider"
    ensures r.Ok? ==> r.value == context.value
  {
    match context
    case None => Err("useToast must be used within a ToastProvider")
    case Some(provider) => Ok(provider)
  }
}
